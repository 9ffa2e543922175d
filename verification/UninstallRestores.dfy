/**
 The inverse theorem: what uninstall makes of a tracked cluster, compared with the
 site's own.
 */
module UninstallRestores {
  import opened Text
  import opened Sequences
  import opened Scheduler
  import opened Planner
  import opened InstallRecord
  import opened InstallGoal
  import opened InstallConverges
  import opened Uninstaller
  import opened UninstallEffect
  import opened UninstallLaws
  import opened InstallUndone

  /** The one condition, read off the record: the PE is install's own; or it is the
      site's, taken over as a whole, with a value uninstall may write back and not
      offered by a queue install created; or the site's and nothing was done to it. */
  predicate Undoable(st: Record, pe: string) {
    st.createdPE == pe
    || (var start := OldOf(st.replaced, PEKey(pe), StartProcArgs);
        if start.Some?
        then !RunsAsOtherUser(start.value)
             && !(st.createdQueue == DEFAULT_QUEUE && PEListAdd(DEFAULT_QUEUE, pe) in st.peListAdds)
        else st.peListAdds == [] && AttrsOf(st.replaced, PEKey(pe)) == [])
  }

  // ---------- Which PEs are ours, which restored ----------

  lemma Only(names: seq<string>, n: string)
    requires DistinctNames(names) && forall x :: x in names <==> x == n
    ensures names == [n]
  {
    assert n in names;
    FirstTwoIn(names);
  }

  lemma FirstTwoIn(names: seq<string>)
    ensures names == [] || names[0] in names
    ensures |names| > 1 ==> names[1] in names
  {
  }

  lemma Nobody(names: seq<string>)
    requires forall x :: x !in names
    ensures names == []
  {
    HeadIn(names);
  }

  ghost predicate Situation(c0: Cluster, c: Cluster, m: Mark, st: Record, inTree: string -> bool) {
    Clean(c0, m, inTree) && MarkIsInTree(m, inTree) && Tracked(c0, c, m, st)
  }

  lemma VerdictOf(c0: Cluster, c: Cluster, m: Mark, st: Record, inTree: string -> bool, n: string)
    requires Situation(c0, c, m, st, inTree) && n in c.pes
    ensures Judge(c.pes[n], st, inTree, "")
         == if n != m.pe then NotOurs
            else if m.pe !in c0.pes then Ours
            else if TookOver(st, m.pe) then Restored else NotOurs
  {
    if n == m.pe && m.pe !in c0.pes {
      OldOfIsRecorded(st.replaced, PEKey(m.pe), StartProcArgs);
    }
  }

  lemma PENames(f: Facts, c0: Cluster, c: Cluster, m: Mark, st: Record, inTree: string -> bool)
    requires Situation(c0, c, m, st, inTree) && Lists(f, c)
    ensures NamesOf(f.pes, Ours, st, inTree, "") == if m.pe !in c0.pes && m.pe in c.pes then [m.pe] else []
    ensures NamesOf(f.pes, Restored, st, inTree, "") == if m.pe in c0.pes && TookOver(st, m.pe) then [m.pe] else []
  {
    VerdictNames(f, c, Ours, st, inTree, "");
    VerdictNames(f, c, Restored, st, inTree, "");
    forall n | n in c.pes
      ensures Judge(c.pes[n], st, inTree, "")
           == if n != m.pe then NotOurs
              else if m.pe !in c0.pes then Ours
              else if TookOver(st, m.pe) then Restored else NotOurs
    {
      VerdictOf(c0, c, m, st, inTree, n);
    }
    var ours, restored := NamesOf(f.pes, Ours, st, inTree, ""), NamesOf(f.pes, Restored, st, inTree, "");
    if m.pe !in c0.pes && m.pe in c.pes { Only(ours, m.pe); } else { Nobody(ours); }
    if m.pe in c0.pes && TookOver(st, m.pe) { Only(restored, m.pe); } else { Nobody(restored); }
  }

  // ---------- Queues ----------

  lemma StarterIsRestored(q0: Queue, q: Queue, m: Mark, st: Record, hasPE: bool, site: bool, inTree: string -> bool)
    requires TrackedQueue(q0, q, m, st, hasPE, site) && SiteQueue(q0, inTree) && inTree(m.starter) && m.starter != ""
    ensures UnwiredStarter(q, st, inTree) == q0.starterMethod
  {
    assert FromNone("NONE") == "";
  }

  lemma OneUnlisted(list: seq<string>, pe: string)
    ensures Unlisted(list, [pe]) == Without(list, pe) && Unlisted(list, []) == list
  {
    assert [pe][1..] == [];
  }

  lemma OneUnadded(list: seq<string>, q: string, pe: string, st: Record)
    ensures Unadded(list, q, [pe], st) == if PEListAdd(q, pe) in st.peListAdds then Without(list, pe) else list
    ensures Unadded(list, q, [], st) == list
  {
    assert [pe][1..] == [];
  }

  /** With a PE of its own, or one taken over, every queue of the site is restored. */
  lemma QueueIsRestored(q0: Queue, q: Queue, m: Mark, st: Record, hasPE: bool, site: bool, inTree: string -> bool,
                        ours: seq<string>, restored: seq<string>)
    requires TrackedQueue(q0, q, m, st, hasPE, site) && SiteQueue(q0, inTree) && inTree(m.starter) && m.starter != ""
    requires if site then ours == [] && restored == [m.pe]
             else restored == [] && ours == (if hasPE then [m.pe] else []) && m.pe !in q0.peList
    ensures Unwired(q, ours, restored, st, inTree) == q0
  {
    StarterIsRestored(q0, q, m, st, hasPE, site, inTree);
    OneUnlisted(q.peList, m.pe);
    OneUnadded(q.peList, q.name, m.pe, st);
    if m.pe !in q0.peList {
      WithoutLast(q0.peList, m.pe);
      WithoutMembers(q0.peList, m.pe);
    }
    if !site {
      OneUnadded(q0.peList, q.name, m.pe, st);
    }
  }

  /** With a PE left alone, a queue of the site is restored unless it was added to. */
  lemma QueueIsLeft(q0: Queue, q: Queue, m: Mark, st: Record, hasPE: bool, inTree: string -> bool)
    requires TrackedQueue(q0, q, m, st, hasPE, true) && SiteQueue(q0, inTree) && inTree(m.starter) && m.starter != ""
    ensures Unwired(q, [], [], st, inTree) == q0 <==> PEListAdd(q0.name, m.pe) !in st.peListAdds
  {
    StarterIsRestored(q0, q, m, st, hasPE, true, inTree);
    OneUnlisted(q.peList, m.pe);
    OneUnadded(q.peList, q.name, m.pe, st);
  }

  // ---------- The PE ----------

  ghost predicate AttrsSite(p0: PE, rs: seq<Replaced>) {
    forall r | r in rs :: SiteValue(p0, r)
  }

  predicate Has(rs: seq<Replaced>, attr: Attr) {
    exists i :: 0 <= i < |rs| && rs[i].attr == attr
  }

  lemma WriteSite(p0: PE, p: PE, r: Replaced)
    requires SiteValue(p0, r) && p0.startProcArgs != ""
    ensures WithPEAttr(p, r.attr, OrNone(r.prev)) == Some(
      match r.attr
      case Slots => p.(slots := p0.slots)
      case StartProcArgs => p.(startProcArgs := p0.startProcArgs)
      case _ => p.(controlSlaves := p0.controlSlaves))
  {
    SlotTexts();
    assert EqualFold("FALSE", "FALSE") && !EqualFold("FALSE", "TRUE");
  }

  lemma HasRest(rs: seq<Replaced>, attr: Attr)
    requires rs != []
    ensures Has(rs, attr) <==> rs[0].attr == attr || Has(rs[1..], attr)
  {
    if Has(rs[1..], attr) {
      var i :| 0 <= i < |rs[1..]| && rs[1..][i].attr == attr;
      assert rs[i + 1].attr == attr;
    }
    if Has(rs, attr) && rs[0].attr != attr {
      var i :| 0 <= i < |rs| && rs[i].attr == attr;
      assert rs[1..][i - 1].attr == attr;
    }
  }

  /** Writing back the recorded values restores exactly the recorded attributes. */
  lemma {:induction false} AttrsAreRestored(p0: PE, p: PE, rs: seq<Replaced>)
    requires AttrsSite(p0, rs) && p0.startProcArgs != ""
    ensures RestoredAttrs(p, rs) == p.(
      slots := if Has(rs, Slots) then p0.slots else p.slots,
      startProcArgs := if Has(rs, StartProcArgs) then p0.startProcArgs else p.startProcArgs,
      controlSlaves := if Has(rs, ControlSlaves) then p0.controlSlaves else p.controlSlaves)
    decreases |rs|
  {
    if rs != [] {
      assert rs[0] in rs;
      WriteSite(p0, p, rs[0]);
      var p1 := WithPEAttr(p, rs[0].attr, OrNone(rs[0].prev)).value;
      assert forall r | r in rs[1..] :: r in rs;
      AttrsAreRestored(p0, p1, rs[1..]);
      HasRest(rs, Slots);
      HasRest(rs, StartProcArgs);
      HasRest(rs, ControlSlaves);
    }
  }

  lemma HasIsRecorded(st: Record, pe: string, attr: Attr)
    ensures Has(AttrsOf(st.replaced, PEKey(pe)), attr) <==> Recorded(st, PEKey(pe), attr).Some?
  {
    var rs := AttrsOf(st.replaced, PEKey(pe));
    AttrsOfAre(st.replaced, PEKey(pe));
    OldOfIsRecorded(st.replaced, PEKey(pe), attr);
    if Recorded(st, PEKey(pe), attr).Some? {
      var r := Replaced(PEKey(pe), attr, Recorded(st, PEKey(pe), attr).value);
      assert r in rs;
      var i :| 0 <= i < |rs| && rs[i] == r;
    }
    if Has(rs, attr) {
      var i :| 0 <= i < |rs| && rs[i].attr == attr;
      assert rs[i] in rs;
    }
  }

  lemma PEIsRestored(p0: PE, p: PE, m: Mark, st: Record)
    requires TrackedPE(p0, p, m, st) && p0.startProcArgs != "" && p.name == m.pe
    ensures RestoredPE(p, st) == p0
  {
    AttrsOfAre(st.replaced, PEKey(m.pe));
    AttrsAreRestored(p0, p, AttrsOf(st.replaced, PEKey(m.pe)));
    HasIsRecorded(st, m.pe, Slots);
    HasIsRecorded(st, m.pe, StartProcArgs);
    HasIsRecorded(st, m.pe, ControlSlaves);
  }

  lemma PEIsLeft(p0: PE, p: PE, m: Mark, st: Record)
    requires TrackedPE(p0, p, m, st) && !TookOver(st, m.pe)
    ensures p == p0 <==> AttrsOf(st.replaced, PEKey(m.pe)) == []
  {
    var rs := AttrsOf(st.replaced, PEKey(m.pe));
    AttrsOfAre(st.replaced, PEKey(m.pe));
    HasIsRecorded(st, m.pe, Slots);
    HasIsRecorded(st, m.pe, StartProcArgs);
    HasIsRecorded(st, m.pe, ControlSlaves);
    if rs != [] {
      assert rs[0] in rs;
      assert SiteValue(p0, rs[0]);
      assert Has(rs, rs[0].attr);
    }
  }

  // ---------- Refusals ----------

  lemma {:induction false} OneWord(v: string, open: string)
    requires |open| + |v| > 0 && forall i | 0 <= i < |v| :: !IsSpace(v[i])
    ensures FieldsFunc(v, Spaces(), open) == [open + v]
    decreases |v|
  {
    if v != [] {
      OneWord(v[1..], open + [v[0]]);
      assert open + [v[0]] + v[1..] == open + v;
    } else {
      assert open + v == open;
    }
  }

  /** A plain word without "@" does not run as another user. */
  lemma PlainWord(v: string)
    requires v != "" && forall i | 0 <= i < |v| :: !IsSpace(v[i]) && v[i] != '@'
    ensures !RunsAsOtherUser(v)
  {
    OneWord(v, "");
    assert "" + v == v;
    assert '@' !in v;
  }

  lemma SiteValuePlain(p0: PE, r: Replaced)
    requires SiteValue(p0, r)
    ensures RunsAsOtherUser(r.prev) ==> r.attr == StartProcArgs && r.prev == p0.startProcArgs
  {
    PlainWord(LEGACY_SLOTS_TEXT);
    PlainWord("FALSE");
  }

  lemma AttrsRefuse(p0: PE, pe: string, rs: seq<Replaced>)
    requires AttrsSite(p0, rs) && Has(rs, StartProcArgs)
    ensures NoRefusal(FlatMap(rs, RestoreRow(pe))) <==> !RunsAsOtherUser(p0.startProcArgs)
  {
    var rows := FlatMap(rs, RestoreRow(pe));
    FlatMapMembers(rs, RestoreRow(pe));
    var i :| 0 <= i < |rs| && rs[i].attr == StartProcArgs;
    assert rs[i] in rs && SiteValue(p0, rs[i]);
    if RunsAsOtherUser(p0.startProcArgs) {
      var row := RefusedRow(pe, StartProcArgs, "", p0.startProcArgs);
      assert row in RestoreRow(pe)(rs[i]);
      assert row in rows;
    } else {
      forall r, ch | r in rs && ch in RestoreRow(pe)(r)
        ensures ch.kind != Refused
      {
        SiteValuePlain(p0, r);
      }
    }
  }

  lemma RestoreRefuses(p0: PE, m: Mark, st: Record)
    requires AttrsSite(p0, AttrsOf(st.replaced, PEKey(m.pe))) && TookOver(st, m.pe)
    ensures NoRefusal(FlatMap([m.pe], RestoreRows(st))) <==> !RunsAsOtherUser(p0.startProcArgs)
  {
    var rs := AttrsOf(st.replaced, PEKey(m.pe));
    HasIsRecorded(st, m.pe, StartProcArgs);
    AttrsRefuse(p0, m.pe, rs);
    assert [m.pe][1..] == [];
    assert FlatMap([m.pe], RestoreRows(st)) == FlatMap(rs, RestoreRow(m.pe)) + [];
  }

  lemma UnwireRefuses(q: Queue, ours: seq<string>, restored: seq<string>, st: Record, inTree: string -> bool)
    requires NoOverrides(q, ours, inTree)
    ensures NoRefusal(UnwireRows(q, ours, restored, st, inTree))
  {
    RemovalsRefuse(q, ours, restored, st);
    NoHits(q, ours, inTree);
    SixRefuse([], FlatMap(ours, OursRemoval(q)), FlatMap(restored, RestoredRemoval(q, st)),
              FlatMap(q.peListOverrides, OverrideRefusal(q, ours)),
              FlatMap(q.starterOverrides, StarterRefusal(q, inTree)), StarterRow(q, st, inTree));
    assert [] + FlatMap(ours, OursRemoval(q)) == FlatMap(ours, OursRemoval(q));
  }

  lemma RemovalsRefuse(q: Queue, ours: seq<string>, restored: seq<string>, st: Record)
    ensures NoRefusal(FlatMap(ours, OursRemoval(q))) && NoRefusal(FlatMap(restored, RestoredRemoval(q, st)))
  {
    FlatMapMembers(ours, OursRemoval(q));
    FlatMapMembers(restored, RestoredRemoval(q, st));
  }

  lemma NoHits(q: Queue, ours: seq<string>, inTree: string -> bool)
    requires NoOverrides(q, ours, inTree)
    ensures FlatMap(q.peListOverrides, OverrideRefusal(q, ours)) == []
    ensures FlatMap(q.starterOverrides, StarterRefusal(q, inTree)) == []
  {
    var r3, r4 := FlatMap(q.peListOverrides, OverrideRefusal(q, ours)),
        FlatMap(q.starterOverrides, StarterRefusal(q, inTree));
    FlatMapMembers(q.peListOverrides, OverrideRefusal(q, ours));
    FlatMapMembers(q.starterOverrides, StarterRefusal(q, inTree));
    if r3 != [] {
      assert r3[0] in r3;
      var ov :| ov in q.peListOverrides && r3[0] in OverrideRefusal(q, ours)(ov);
      FlatMapMembers(ours, OverrideHit(q, ov));
    }
    HeadIn(r4);
  }

  lemma QueueRowsRefuse(f: Facts, c: Cluster, created: string, ours: seq<string>, restored: seq<string>, st: Record,
                        inTree: string -> bool)
    requires Lists(f, c)
    requires forall n | n in c.queues :: NoOverrides(c.queues[n], ours, inTree)
    ensures NoRefusal(FlatMap(f.queues, QueueRows(created, ours, restored, st, inTree)))
  {
    var rowsOf := QueueRows(created, ours, restored, st, inTree);
    FlatMapMembers(f.queues, rowsOf);
    forall q, ch | q in f.queues && ch in rowsOf(q)
      ensures ch.kind != Refused
    {
      assert rowsOf(q) == RowsUnlessDeleted(q, created, ours, restored, st, inTree);
      UnwireRefuses(q, ours, restored, st, inTree);
    }
  }

  lemma SixRefuse(r0: seq<Change>, r1: seq<Change>, r2: seq<Change>, r3: seq<Change>, r4: seq<Change>, r5: seq<Change>)
    requires NoRefusal(r0) && NoRefusal(r1) && NoRefusal(r2) && NoRefusal(r3) && NoRefusal(r4)
    ensures NoRefusal(r0 + r1 + r2 + r3 + r4 + r5) <==> NoRefusal(r5)
  {
    assert forall ch | ch in r5 :: ch in r0 + r1 + r2 + r3 + r4 + r5;
  }

  lemma TrackedOverrides(c0: Cluster, c: Cluster, m: Mark, st: Record, inTree: string -> bool)
    requires Situation(c0, c, m, st, inTree)
    ensures forall n | n in c.queues ::
      NoOverrides(c.queues[n], if m.pe !in c0.pes && m.pe in c.pes then [m.pe] else [], inTree)
  {
    forall n | n in c.queues
      ensures NoOverrides(c.queues[n], if m.pe !in c0.pes && m.pe in c.pes then [m.pe] else [], inTree)
    {
      if n in c0.queues {
        var q0 := c0.queues[n];
        assert TrackedQueue(q0, c.queues[n], m, st, m.pe in c.pes, m.pe in c0.pes);
        assert SiteQueue(q0, inTree);
        forall ov | ov in q0.peListOverrides && m.pe !in c0.pes
          ensures m.pe !in OverrideWords(ov)
        {
          var i :| 0 <= i < |q0.peListOverrides| && q0.peListOverrides[i] == ov;
          assert !Offers(q0, m.pe);
        }
      }
    }
  }

  /** The only refusal is to write back a value that runs as another user. */
  lemma PlanRefuses(f: Facts, c0: Cluster, c: Cluster, m: Mark, st: Record, inTree: string -> bool)
    requires Situation(c0, c, m, st, inTree) && Lists(f, c)
    ensures NoRefusal(UninstallPlan(f, st, inTree, ""))
      <==> !Refuses(c0, m, st)
  {
    OnlyRestoresRefuse(f, c0, c, m, st, inTree);
    RestoredRefuse(f, c0, c, m, st, inTree);
  }

  lemma OnlyRestoresRefuse(f: Facts, c0: Cluster, c: Cluster, m: Mark, st: Record, inTree: string -> bool)
    requires Situation(c0, c, m, st, inTree) && Lists(f, c)
    ensures NoRefusal(UninstallPlan(f, st, inTree, ""))
      <==> NoRefusal(FlatMap(NamesOf(f.pes, Restored, st, inTree, ""), RestoreRows(st)))
  {
    PENames(f, c0, c, m, st, inTree);
    TrackedOverrides(c0, c, m, st, inTree);
    NoUnknownRows(f, c0, c, m, st, inTree);
    PlanRefusesIff(f, c, st, inTree, NamesOf(f.pes, Ours, st, inTree, ""), NamesOf(f.pes, Restored, st, inTree, ""));
  }

  lemma RestoredRefuse(f: Facts, c0: Cluster, c: Cluster, m: Mark, st: Record, inTree: string -> bool)
    requires Situation(c0, c, m, st, inTree) && Lists(f, c)
    ensures NoRefusal(FlatMap(NamesOf(f.pes, Restored, st, inTree, ""), RestoreRows(st))) <==> !Refuses(c0, m, st)
  {
    PENames(f, c0, c, m, st, inTree);
    NamedRefuse(c0, c, m, st, NamesOf(f.pes, Restored, st, inTree, ""));
  }

  lemma NamedRefuse(c0: Cluster, c: Cluster, m: Mark, st: Record, restored: seq<string>)
    requires TrackedPEs(c0, c, m, st) && restored == if m.pe in c0.pes && TookOver(st, m.pe) then [m.pe] else []
    ensures NoRefusal(FlatMap(restored, RestoreRows(st))) <==> !Refuses(c0, m, st)
  {
    if m.pe in c0.pes && TookOver(st, m.pe) {
      SiteAttrs(c0.pes[m.pe], c.pes[m.pe], m, st);
      RestoreRefuses(c0.pes[m.pe], m, st);
    }
  }

  lemma SiteAttrs(p0: PE, p: PE, m: Mark, st: Record)
    requires TrackedPE(p0, p, m, st)
    ensures AttrsSite(p0, AttrsOf(st.replaced, PEKey(m.pe)))
  {
    AttrsOfAre(st.replaced, PEKey(m.pe));
  }

  lemma PlanRefusesIff(f: Facts, c: Cluster, st: Record, inTree: string -> bool, ours: seq<string>,
                       restored: seq<string>)
    requires ours == NamesOf(f.pes, Ours, st, inTree, "") && restored == NamesOf(f.pes, Restored, st, inTree, "")
    requires Lists(f, c)
    requires forall n | n in c.queues :: NoOverrides(c.queues[n], ours, inTree)
    requires NoRefusal(FlatMap(f.pes, UnknownRow(st, inTree, "")))
    ensures NoRefusal(UninstallPlan(f, st, inTree, "")) <==> NoRefusal(FlatMap(restored, RestoreRows(st)))
  {
    var created := QueueToDelete(f.queues, st, ours, inTree);
    QueueRowsRefuse(f, c, created, ours, restored, st, inTree);
    DeletesRefuse(ours);
    SixRefuse(FlatMap(f.pes, UnknownRow(st, inTree, "")),
              FlatMap(f.queues, QueueRows(created, ours, restored, st, inTree)), DeleteQueueRows(created),
              FlatMap(ours, DeletePERow()), DeleteComplexRows(f, st), FlatMap(restored, RestoreRows(st)));
  }

  lemma {:induction false} DeletesRefuse(ours: seq<string>)
    ensures NoRefusal(FlatMap(ours, DeletePERow()))
  {
    FlatMapMembers(ours, DeletePERow());
  }

  lemma NoUnknownRows(f: Facts, c0: Cluster, c: Cluster, m: Mark, st: Record, inTree: string -> bool)
    requires Situation(c0, c, m, st, inTree) && Lists(f, c)
    ensures NoRefusal(FlatMap(f.pes, UnknownRow(st, inTree, "")))
  {
    FlatMapMembers(f.pes, UnknownRow(st, inTree, ""));
    forall p | p in f.pes
      ensures UnknownRow(st, inTree, "")(p) == []
    {
      VerdictOf(c0, c, m, st, inTree, p.name);
    }
  }

  // ---------- The cluster uninstall ends with ----------

  /** Which queue the plan deletes, seen from the tracked cluster. */
  ghost predicate Deletes(created: string, c: Cluster, m: Mark, st: Record, ours: seq<string>, inTree: string -> bool) {
    && (created == "" || created == m.own)
    && (created == m.own <==> st.createdQueue == m.own && m.own in c.queues
                              && CreatedByShim(c.queues[m.own], ours, inTree))
  }

  lemma DeletesHolds(f: Facts, c: Cluster, m: Mark, st: Record, ours: seq<string>, inTree: string -> bool)
    requires Named(c) && Lists(f, c) && m.own == DEFAULT_QUEUE
    ensures Deletes(QueueToDelete(f.queues, st, ours, inTree), c, m, st, ours, inTree)
  {
    DeletedQueueExists(f, c, st, ours, inTree);
  }

  /** The site's queues survive the deletion of install's own. */
  lemma SiteQueuesStay(c0: Cluster, c: Cluster, m: Mark, st: Record, created: string, ours: seq<string>,
                       inTree: string -> bool)
    requires "" !in c0.queues && TrackedQueues(c0, c, m, st) && Deletes(created, c, m, st, ours, inTree) && m.own != ""
    ensures created !in c0.queues
  {
  }

  lemma SiteQueuesRestored(c0: Cluster, c: Cluster, m: Mark, st: Record, inTree: string -> bool,
                           ours: seq<string>, restored: seq<string>)
    requires TrackedQueues(c0, c, m, st) && inTree(m.starter) && m.starter != ""
    requires forall n | n in c0.queues :: SiteQueue(c0.queues[n], inTree)
    requires m.pe in c0.pes ==> m.pe in c.pes
    requires m.pe !in c0.pes ==> forall n | n in c0.queues :: !Offers(c0.queues[n], m.pe)
    requires if m.pe in c0.pes then ours == [] && restored == [m.pe]
             else restored == [] && ours == (if m.pe in c.pes then [m.pe] else [])
    ensures forall n | n in c0.queues :: Unwired(c.queues[n], ours, restored, st, inTree) == c0.queues[n]
  {
    forall n | n in c0.queues
      ensures Unwired(c.queues[n], ours, restored, st, inTree) == c0.queues[n]
    {
      var q0 := c0.queues[n];
      assert TrackedQueue(q0, c.queues[n], m, st, m.pe in c.pes, m.pe in c0.pes);
      assert m.pe !in c0.pes ==> !Offers(q0, m.pe);
      QueueIsRestored(q0, c.queues[n], m, st, m.pe in c.pes, m.pe in c0.pes, inTree, ours, restored);
    }
  }

  lemma SiteQueuesLeft(c0: Cluster, c: Cluster, m: Mark, st: Record, inTree: string -> bool)
    requires TrackedQueues(c0, c, m, st) && inTree(m.starter) && m.starter != ""
    requires forall n | n in c0.queues :: SiteQueue(c0.queues[n], inTree) && c0.queues[n].name == n
    requires m.pe in c0.pes && m.pe in c.pes
    ensures forall n | n in c0.queues ::
      Unwired(c.queues[n], [], [], st, inTree) == c0.queues[n] <==> PEListAdd(n, m.pe) !in st.peListAdds
  {
    forall n | n in c0.queues
      ensures Unwired(c.queues[n], [], [], st, inTree) == c0.queues[n] <==> PEListAdd(n, m.pe) !in st.peListAdds
    {
      assert TrackedQueue(c0.queues[n], c.queues[n], m, st, true, true);
      QueueIsLeft(c0.queues[n], c.queues[n], m, st, true, inTree);
    }
  }

  /** Install's own queue is left behind exactly when it offers a PE that is not ours. */
  lemma OwnQueueStays(c0: Cluster, c: Cluster, m: Mark, st: Record, inTree: string -> bool, created: string)
    requires TrackedQueues(c0, c, m, st) && inTree(m.starter) && m.own != ""
    requires m.pe in c0.pes && m.pe in c.pes
    requires Deletes(created, c, m, st, [], inTree)
    ensures m.own in c.queues && m.own !in c0.queues && created != m.own
      <==> st.createdQueue == m.own && PEListAdd(m.own, m.pe) in st.peListAdds
  {
    if m.own in c.queues && m.own !in c0.queues {
      var q := c.queues[m.own];
      assert FreshQueue(q, m, st, true, true);
      assert q.peList != [] ==> q.peList[0] !in [];
      assert CreatedByShim(q, [], inTree) <==> q.peList == [];
    }
  }

  lemma OwnQueueGoes(c0: Cluster, c: Cluster, m: Mark, st: Record, inTree: string -> bool, created: string,
                     ours: seq<string>)
    requires TrackedQueues(c0, c, m, st) && inTree(m.starter)
    requires m.pe !in c0.pes && ours == (if m.pe in c.pes then [m.pe] else [])
    requires Deletes(created, c, m, st, ours, inTree)
    ensures m.own in c.queues && m.own !in c0.queues ==> created == m.own
  {
    if m.own in c.queues && m.own !in c0.queues {
      assert FreshQueue(c.queues[m.own], m, st, m.pe in c.pes, false);
    }
  }

  /** Once the queues are the site's, so are the complexes. */
  lemma ComplexesEnd(f: Facts, c0: Cluster, c: Cluster, m: Mark, st: Record)
    requires Named(c) && Lists(f, c) && TrackedComplexes(c0, c, m, st) && m.cx == SHIM_COMPLEX
    requires m.cx !in c0.complexes ==> forall n | n in c0.queues :: !NamesComplex(c0.queues[n], m.cx)
    ensures ComplexesLeft(f, c, st, c0.queues) == c0.complexes
  {
    Reading(f, c, SHIM_COMPLEX);
    assert m.cx in c.complexes && m.cx !in c0.complexes ==> DeleteComplexRows(f, st) != [];
    assert m.cx in c0.complexes ==> DeleteComplexRows(f, st) == [];
  }

  lemma PEsEndOwn(c0: Cluster, c: Cluster, m: Mark, st: Record, ours: seq<string>)
    requires TrackedPEs(c0, c, m, st) && m.pe !in c0.pes && ours == (if m.pe in c.pes then [m.pe] else [])
    ensures RestoreNamed(PEsLeft(c, ours), [], st) == c0.pes
  {
  }

  lemma PEsEndTaken(c0: Cluster, c: Cluster, m: Mark, st: Record)
    requires TrackedPEs(c0, c, m, st) && m.pe in c0.pes && c0.pes[m.pe].startProcArgs != "" && c.pes[m.pe].name == m.pe
    ensures RestoreNamed(PEsLeft(c, []), [m.pe], st) == c0.pes
  {
    PEIsRestored(c0.pes[m.pe], c.pes[m.pe], m, st);
  }

  lemma PEsEndLeft(c0: Cluster, c: Cluster, m: Mark, st: Record)
    requires TrackedPEs(c0, c, m, st) && m.pe in c0.pes && !TookOver(st, m.pe)
    ensures RestoreNamed(PEsLeft(c, []), [], st) == c0.pes <==> AttrsOf(st.replaced, PEKey(m.pe)) == []
  {
    PEIsLeft(c0.pes[m.pe], c.pes[m.pe], m, st);
    assert RestoreNamed(PEsLeft(c, []), [], st) == c.pes;
    assert c.pes == c0.pes <==> c.pes[m.pe] == c0.pes[m.pe];
  }

  /** The queues left are the site's, but for install's own if it stays. */
  lemma LeftIsSite(c0: Cluster, c: Cluster, m: Mark, st: Record, created: string, ours: seq<string>,
                   restored: seq<string>, inTree: string -> bool)
    requires TrackedQueues(c0, c, m, st) && created !in c0.queues && (created == "" || created == m.own)
    requires forall n | n in c0.queues :: Unwired(c.queues[n], ours, restored, st, inTree) == c0.queues[n]
    ensures QueuesLeft(c, created, ours, restored, st, inTree) == c0.queues
      <==> !(m.own in c.queues && m.own !in c0.queues && created != m.own)
  {
    var left := QueuesLeft(c, created, ours, restored, st, inTree);
    if m.own in c.queues && m.own !in c0.queues && created != m.own {
      assert m.own in left;
    } else {
      assert left.Keys == c0.queues.Keys;
    }
  }

  /** Install's own PE: everything is given back. */
  lemma OwnPEEnds(f: Facts, c0: Cluster, c: Cluster, m: Mark, st: Record, inTree: string -> bool)
    requires Situation(c0, c, m, st, inTree) && Lists(f, c)
    requires m.own == DEFAULT_QUEUE && m.cx == SHIM_COMPLEX
    requires m.pe !in c0.pes
    ensures Ended(f, c, st, inTree, "") == c0
  {
    var ours := if m.pe in c.pes then [m.pe] else [];
    var created := QueueToDelete(f.queues, st, ours, inTree);
    PENames(f, c0, c, m, st, inTree);
    DeletesHolds(f, c, m, st, ours, inTree);
    SiteQueuesStay(c0, c, m, st, created, ours, inTree);
    SiteQueuesRestored(c0, c, m, st, inTree, ours, []);
    OwnQueueGoes(c0, c, m, st, inTree, created, ours);
    LeftIsSite(c0, c, m, st, created, ours, [], inTree);
    PEsEndOwn(c0, c, m, st, ours);
    ComplexesEnd(f, c0, c, m, st);
  }

  /** A site PE taken over: all but a queue install created that offers it. */
  lemma TakenPEEnds(f: Facts, c0: Cluster, c: Cluster, m: Mark, st: Record, inTree: string -> bool)
    requires Situation(c0, c, m, st, inTree) && Lists(f, c)
    requires m.own == DEFAULT_QUEUE && m.cx == SHIM_COMPLEX
    requires m.pe in c0.pes && TookOver(st, m.pe)
    ensures Ended(f, c, st, inTree, "") == c0
      <==> !(st.createdQueue == m.own && PEListAdd(m.own, m.pe) in st.peListAdds)
  {
    var created := QueueToDelete(f.queues, st, [], inTree);
    PENames(f, c0, c, m, st, inTree);
    DeletesHolds(f, c, m, st, [], inTree);
    SiteQueuesStay(c0, c, m, st, created, [], inTree);
    SiteQueuesRestored(c0, c, m, st, inTree, [], [m.pe]);
    OwnQueueStays(c0, c, m, st, inTree, created);
    LeftIsSite(c0, c, m, st, created, [], [m.pe], inTree);
    PEsEndTaken(c0, c, m, st);
    ComplexesEnd(f, c0, c, m, st);
  }

  lemma AddsAre(c0: Cluster, c: Cluster, m: Mark, st: Record)
    requires TrackedQueues(c0, c, m, st) && m.pe in c0.pes
    ensures st.peListAdds != [] ==>
      exists n :: n in c.queues && PEListAdd(n, m.pe) in st.peListAdds
                  && (n in c0.queues || (n == m.own && st.createdQueue == m.own))
  {
    if st.peListAdds != [] {
      var x := st.peListAdds[0];
      assert x in st.peListAdds && x == PEListAdd(x.queue, m.pe);
    }
  }

  lemma LeftAfterNothing(c0: Cluster, c: Cluster, m: Mark, st: Record, created: string, inTree: string -> bool)
    requires TrackedQueues(c0, c, m, st) && created !in c0.queues && (created == "" || created == m.own)
    requires m.pe in c0.pes
    requires forall n | n in c0.queues ::
      Unwired(c.queues[n], [], [], st, inTree) == c0.queues[n] <==> PEListAdd(n, m.pe) !in st.peListAdds
    requires m.own in c.queues && m.own !in c0.queues && created != m.own
      <==> st.createdQueue == m.own && PEListAdd(m.own, m.pe) in st.peListAdds
    ensures QueuesLeft(c, created, [], [], st, inTree) == c0.queues <==> st.peListAdds == []
  {
    var left := QueuesLeft(c, created, [], [], st, inTree);
    AddsAre(c0, c, m, st);
    if st.peListAdds == [] {
      assert left.Keys == c0.queues.Keys;
    } else {
      var n :| n in c.queues && PEListAdd(n, m.pe) in st.peListAdds
               && (n in c0.queues || (n == m.own && st.createdQueue == m.own));
      assert n in left;
    }
  }

  /** A site PE left alone: what was done must be nothing. */
  lemma ForeignPEEnds(f: Facts, c0: Cluster, c: Cluster, m: Mark, st: Record, inTree: string -> bool)
    requires Situation(c0, c, m, st, inTree) && Lists(f, c)
    requires m.own == DEFAULT_QUEUE && m.cx == SHIM_COMPLEX
    requires m.pe in c0.pes && !TookOver(st, m.pe)
    ensures Ended(f, c, st, inTree, "") == c0
      <==> st.peListAdds == [] && AttrsOf(st.replaced, PEKey(m.pe)) == []
  {
    var created := QueueToDelete(f.queues, st, [], inTree);
    PENames(f, c0, c, m, st, inTree);
    DeletesHolds(f, c, m, st, [], inTree);
    SiteQueuesStay(c0, c, m, st, created, [], inTree);
    SiteQueuesLeft(c0, c, m, st, inTree);
    OwnQueueStays(c0, c, m, st, inTree, created);
    LeftAfterNothing(c0, c, m, st, created, inTree);
    PEsEndLeft(c0, c, m, st);
    ComplexesEnd(f, c0, c, m, st);
  }

  /** What uninstall makes of a tracked cluster is the site's own cluster if and
      only if the record is undoable. */
  lemma UninstallRestores(f: Facts, c0: Cluster, c: Cluster, m: Mark, st: Record, inTree: string -> bool)
    requires Situation(c0, c, m, st, inTree) && Lists(f, c)
    requires m.own == DEFAULT_QUEUE && m.cx == SHIM_COMPLEX
    ensures UninstallResult(c, UninstallPlan(f, st, inTree, "")) == c0 <==> Undoable(st, m.pe)
  {
    if Undoable(st, m.pe) {
      UndoableIsRestored(f, c0, c, m, st, inTree);
    } else {
      OthersAreNot(f, c0, c, m, st, inTree);
    }
  }

  lemma UndoableIsRestored(f: Facts, c0: Cluster, c: Cluster, m: Mark, st: Record, inTree: string -> bool)
    requires Situation(c0, c, m, st, inTree) && Lists(f, c)
    requires m.own == DEFAULT_QUEUE && m.cx == SHIM_COMPLEX && Undoable(st, m.pe)
    ensures UninstallResult(c, UninstallPlan(f, st, inTree, "")) == c0
  {
    if m.pe !in c0.pes {
      RestoresOwn(f, c0, c, m, st, inTree);
    } else if TookOver(st, m.pe) {
      TakenRestored(f, c0, c, m, st, inTree);
    } else {
      ForeignRestored(f, c0, c, m, st, inTree);
    }
  }

  lemma OthersAreNot(f: Facts, c0: Cluster, c: Cluster, m: Mark, st: Record, inTree: string -> bool)
    requires Situation(c0, c, m, st, inTree) && Lists(f, c)
    requires m.own == DEFAULT_QUEUE && m.cx == SHIM_COMPLEX && !Undoable(st, m.pe)
    ensures UninstallResult(c, UninstallPlan(f, st, inTree, "")) != c0
  {
    if m.pe !in c0.pes {
      RestoresOwn(f, c0, c, m, st, inTree);
      assert false;
    } else if !TookOver(st, m.pe) {
      ForeignKept(f, c0, c, m, st, inTree);
    } else if Refuses(c0, m, st) {
      TakenRefused(f, c0, c, m, st, inTree);
    } else {
      TakenKept(f, c0, c, m, st, inTree);
    }
  }

  lemma RestoresOwn(f: Facts, c0: Cluster, c: Cluster, m: Mark, st: Record, inTree: string -> bool)
    requires Situation(c0, c, m, st, inTree) && Lists(f, c)
    requires m.own == DEFAULT_QUEUE && m.cx == SHIM_COMPLEX && m.pe !in c0.pes
    ensures UninstallResult(c, UninstallPlan(f, st, inTree, "")) == c0 && Undoable(st, m.pe)
  {
    UninstallIs(f, c0, c, m, st, inTree);
    OwnPEEnds(f, c0, c, m, st, inTree);
    NotTaken(c0, c, m, st);
  }

  lemma ForeignRestored(f: Facts, c0: Cluster, c: Cluster, m: Mark, st: Record, inTree: string -> bool)
    requires Situation(c0, c, m, st, inTree) && Lists(f, c)
    requires m.own == DEFAULT_QUEUE && m.cx == SHIM_COMPLEX
    requires m.pe in c0.pes && !TookOver(st, m.pe) && Undoable(st, m.pe)
    ensures UninstallResult(c, UninstallPlan(f, st, inTree, "")) == c0
  {
    ForeignEnds(f, c0, c, m, st, inTree);
    ForeignPEEnds(f, c0, c, m, st, inTree);
    ForeignIsUndoable(c0, c, m, st, inTree);
  }

  lemma ForeignKept(f: Facts, c0: Cluster, c: Cluster, m: Mark, st: Record, inTree: string -> bool)
    requires Situation(c0, c, m, st, inTree) && Lists(f, c)
    requires m.own == DEFAULT_QUEUE && m.cx == SHIM_COMPLEX
    requires m.pe in c0.pes && !TookOver(st, m.pe) && !Undoable(st, m.pe)
    ensures UninstallResult(c, UninstallPlan(f, st, inTree, "")) != c0
  {
    ForeignEnds(f, c0, c, m, st, inTree);
    ForeignPEEnds(f, c0, c, m, st, inTree);
    ForeignIsUndoable(c0, c, m, st, inTree);
  }

  lemma ForeignEnds(f: Facts, c0: Cluster, c: Cluster, m: Mark, st: Record, inTree: string -> bool)
    requires Situation(c0, c, m, st, inTree) && Lists(f, c)
    requires m.own == DEFAULT_QUEUE && m.cx == SHIM_COMPLEX
    requires m.pe in c0.pes && !TookOver(st, m.pe)
    ensures UninstallResult(c, UninstallPlan(f, st, inTree, "")) == Ended(f, c, st, inTree, "")
  {
    UninstallIs(f, c0, c, m, st, inTree);
  }

  lemma ForeignIsUndoable(c0: Cluster, c: Cluster, m: Mark, st: Record, inTree: string -> bool)
    requires Situation(c0, c, m, st, inTree)
    requires m.pe in c0.pes && !TookOver(st, m.pe)
    ensures Undoable(st, m.pe) <==> st.peListAdds == [] && AttrsOf(st.replaced, PEKey(m.pe)) == []
  {
    ForeignUndoable(c0, c, m, st);
  }

  lemma ForeignUndoable(c0: Cluster, c: Cluster, m: Mark, st: Record)
    requires TrackedPEs(c0, c, m, st) && m.pe in c0.pes && m.pe != "" && !TookOver(st, m.pe)
    ensures Undoable(st, m.pe) <==> st.peListAdds == [] && AttrsOf(st.replaced, PEKey(m.pe)) == []
  {
  }

  /** Refusing leaves the cluster alone, and only a value of another user is refused. */
  predicate Refuses(c0: Cluster, m: Mark, st: Record) {
    m.pe in c0.pes && TookOver(st, m.pe) && RunsAsOtherUser(c0.pes[m.pe].startProcArgs)
  }

  lemma UninstallIs(f: Facts, c0: Cluster, c: Cluster, m: Mark, st: Record, inTree: string -> bool)
    requires Situation(c0, c, m, st, inTree) && Lists(f, c)
    ensures UninstallResult(c, UninstallPlan(f, st, inTree, ""))
         == if Refuses(c0, m, st) then c else Ended(f, c, st, inTree, "")
  {
    var plan := UninstallPlan(f, st, inTree, "");
    NoRefusalIs(plan);
    PlanRefuses(f, c0, c, m, st, inTree);
    if NoRefusal(plan) {
      UninstallEnds(f, c, st, inTree, "");
    }
  }

  lemma TakenRestored(f: Facts, c0: Cluster, c: Cluster, m: Mark, st: Record, inTree: string -> bool)
    requires Situation(c0, c, m, st, inTree) && Lists(f, c)
    requires m.own == DEFAULT_QUEUE && m.cx == SHIM_COMPLEX
    requires m.pe in c0.pes && TookOver(st, m.pe) && Undoable(st, m.pe)
    ensures UninstallResult(c, UninstallPlan(f, st, inTree, "")) == c0
  {
    UndoableIsNotRefused(c0, c, m, st, inTree);
    TakenEnds(f, c0, c, m, st, inTree);
    TakenPEEnds(f, c0, c, m, st, inTree);
    TakenIsUndoable(c0, c, m, st, inTree);
  }

  lemma UndoableIsNotRefused(c0: Cluster, c: Cluster, m: Mark, st: Record, inTree: string -> bool)
    requires Situation(c0, c, m, st, inTree)
    requires m.pe in c0.pes && TookOver(st, m.pe) && Undoable(st, m.pe)
    ensures !Refuses(c0, m, st)
  {
    TakenIs(c0, c, m, st, inTree);
  }

  lemma TakenKept(f: Facts, c0: Cluster, c: Cluster, m: Mark, st: Record, inTree: string -> bool)
    requires Situation(c0, c, m, st, inTree) && Lists(f, c)
    requires m.own == DEFAULT_QUEUE && m.cx == SHIM_COMPLEX
    requires m.pe in c0.pes && TookOver(st, m.pe) && !Refuses(c0, m, st) && !Undoable(st, m.pe)
    ensures UninstallResult(c, UninstallPlan(f, st, inTree, "")) != c0
  {
    TakenEnds(f, c0, c, m, st, inTree);
    TakenPEEnds(f, c0, c, m, st, inTree);
    TakenIsUndoable(c0, c, m, st, inTree);
  }

  lemma TakenRefused(f: Facts, c0: Cluster, c: Cluster, m: Mark, st: Record, inTree: string -> bool)
    requires Situation(c0, c, m, st, inTree) && Lists(f, c)
    requires m.own == DEFAULT_QUEUE && m.cx == SHIM_COMPLEX
    requires m.pe in c0.pes && TookOver(st, m.pe) && Refuses(c0, m, st)
    ensures UninstallResult(c, UninstallPlan(f, st, inTree, "")) != c0 && !Undoable(st, m.pe)
  {
    UninstallIs(f, c0, c, m, st, inTree);
    TakenIs(c0, c, m, st, inTree);
  }

  lemma TakenEnds(f: Facts, c0: Cluster, c: Cluster, m: Mark, st: Record, inTree: string -> bool)
    requires Situation(c0, c, m, st, inTree) && Lists(f, c)
    requires m.own == DEFAULT_QUEUE && m.cx == SHIM_COMPLEX
    requires m.pe in c0.pes && TookOver(st, m.pe) && !Refuses(c0, m, st)
    ensures UninstallResult(c, UninstallPlan(f, st, inTree, "")) == Ended(f, c, st, inTree, "")
  {
    UninstallIs(f, c0, c, m, st, inTree);
  }

  lemma TakenIsUndoable(c0: Cluster, c: Cluster, m: Mark, st: Record, inTree: string -> bool)
    requires Situation(c0, c, m, st, inTree)
    requires m.pe in c0.pes && TookOver(st, m.pe) && !Refuses(c0, m, st)
    ensures Undoable(st, m.pe)
      <==> !(st.createdQueue == DEFAULT_QUEUE && PEListAdd(DEFAULT_QUEUE, m.pe) in st.peListAdds)
  {
    TakenIs(c0, c, m, st, inTree);
  }

  lemma NotTaken(c0: Cluster, c: Cluster, m: Mark, st: Record)
    requires TrackedPEs(c0, c, m, st) && m.pe !in c0.pes
    ensures Undoable(st, m.pe)
  {
    OldOfIsRecorded(st.replaced, PEKey(m.pe), StartProcArgs);
    AttrsOfAre(st.replaced, PEKey(m.pe));
    var rs := AttrsOf(st.replaced, PEKey(m.pe));
    HeadIn(rs);
  }

  lemma TakenIs(c0: Cluster, c: Cluster, m: Mark, st: Record, inTree: string -> bool)
    requires TrackedPEs(c0, c, m, st) && m.pe in c0.pes && TookOver(st, m.pe) && m.pe != ""
    requires inTree(m.want.startProcArgs) && !inTree(c0.pes[m.pe].startProcArgs)
    ensures OldOf(st.replaced, PEKey(m.pe), StartProcArgs) == Some(c0.pes[m.pe].startProcArgs)
    ensures c != c0 && st.createdPE != m.pe
  {
    var start := OldOf(st.replaced, PEKey(m.pe), StartProcArgs);
    OldOfIsRecorded(st.replaced, PEKey(m.pe), StartProcArgs);
    assert SiteValue(c0.pes[m.pe], Replaced(PEKey(m.pe), StartProcArgs, start.value));
  }

  /** From any clean site, after any history of installs into one tree -- whatever
      their --queue and --force, whatever failed, however often they ran -- uninstall
      gives back exactly the site's cluster, if and only if the record is undoable. */
  lemma HistoryIsUndone(c0: Cluster, prefix: string, pe: string, discover: Cluster -> Facts, visits: seq<Visit>,
                        inTree: string -> bool)
    requires pe != "" && Clean(c0, MarkOf(prefix, pe), inTree)
    requires inTree(StarterPath(prefix)) && inTree(HookPath(prefix))
    requires forall c | Named(c) :: Lists(discover(c), c)
    requires forall v | v in visits :: Allowed(c0, pe, v)
    ensures var e := History(Site(c0, EMPTY), prefix, pe, discover, visits);
      UninstallResult(e.cluster, UninstallPlan(discover(e.cluster), e.record, inTree, "")) == c0
      <==> Undoable(e.record, pe)
  {
    var m := MarkOf(prefix, pe);
    StarterIsAPath(prefix);
    StartIsTracked(c0, m);
    HistoryIsTracked(c0, Site(c0, EMPTY), prefix, pe, discover, visits, inTree);
    var e := History(Site(c0, EMPTY), prefix, pe, discover, visits);
    UninstallRestores(discover(e.cluster), c0, e.cluster, m, e.record, inTree);
  }

  /** With a PE of install's own there is no condition. */
  lemma OwnPEIsAlwaysUndone(c0: Cluster, prefix: string, pe: string, discover: Cluster -> Facts, visits: seq<Visit>,
                            inTree: string -> bool)
    requires pe != "" && pe !in c0.pes && Clean(c0, MarkOf(prefix, pe), inTree)
    requires inTree(StarterPath(prefix)) && inTree(HookPath(prefix))
    requires forall c | Named(c) :: Lists(discover(c), c)
    requires forall v | v in visits :: Allowed(c0, pe, v)
    ensures var e := History(Site(c0, EMPTY), prefix, pe, discover, visits);
      UninstallResult(e.cluster, UninstallPlan(discover(e.cluster), e.record, inTree, "")) == c0
  {
    var m := MarkOf(prefix, pe);
    StarterIsAPath(prefix);
    StartIsTracked(c0, m);
    HistoryIsTracked(c0, Site(c0, EMPTY), prefix, pe, discover, visits, inTree);
    var e := History(Site(c0, EMPTY), prefix, pe, discover, visits);
    HistoryIsUndone(c0, prefix, pe, discover, visits, inTree);
    NotTaken(c0, e.cluster, m, e.record);
  }

  // ---------- Where the condition fails ----------

  lemma OwnQueueOffers(c0: Cluster, o: Options)
    requires Creates(c0, o)
    ensures DEFAULT_QUEUE in Goal(c0, o).queues && Goal(c0, o).queues[DEFAULT_QUEUE].peList == [PEName(o)]
    ensures DEFAULT_QUEUE !in c0.queues
  {
    var q := AimOf(c0, o).base[DEFAULT_QUEUE];
    assert q.peList == [];
    assert Wire(q, AimOf(c0, o)).peList == [] + [PEName(o)];
  }

  /** The failing family: --force on a site's PE together with the default queue.
      Everything applies and is recorded, and uninstall still leaves slurm.q. */
  lemma ForcedDefaultIsNotUndone(c0: Cluster, f: Facts, prefix: string, pe: string, f2: Facts, inTree: string -> bool)
    requires pe != "" && pe in c0.pes && Clean(c0, MarkOf(prefix, pe), inTree) && Lists(f, c0)
    requires inTree(StarterPath(prefix)) && inTree(HookPath(prefix))
    requires Creates(c0, Options(prefix, pe, [], "", true))
    requires Lists(f2, After(c0, InstallPlan(f, Options(prefix, pe, [], "", true))))
    ensures var plan := InstallPlan(f, Options(prefix, pe, [], "", true));
      var st := RecordAfter(EMPTY, c0, plan, [], true);
      Applies(c0, plan) && UninstallResult(After(c0, plan), UninstallPlan(f2, st, inTree, "")) != c0
  {
    var o, m := Options(prefix, pe, [], "", true), MarkOf(prefix, pe);
    var plan := InstallPlan(f, o);
    var d, st := After(c0, plan), RecordAfter(EMPTY, c0, plan, [], true);
    StarterIsAPath(prefix);
    FullRun(f, c0, o);
    StartIsTracked(c0, m);
    VisitStaysTracked(c0, Site(c0, EMPTY), prefix, pe, _ => f, Visit([], true, Round([], true)), inTree);
    assert Rerun(VisitOptions(prefix, pe, Visit([], true, Round([], true))), EMPTY) == o;
    RecordNamesQueue(f, c0, o, EMPTY, [], true);
    OwnQueueOffers(c0, o);
    ForcedTakesOver(c0, d, o, m, st, inTree);
    OwnQueueIsAdded(c0, d, m, st);
    UninstallRestores(f2, c0, d, m, st, inTree);
  }

  lemma ForcedTakesOver(c0: Cluster, d: Cluster, o: Options, m: Mark, st: Record, inTree: string -> bool)
    requires o.force && d == Goal(c0, o) && m.pe == PEName(o) && m.pe in c0.pes && m.pe != ""
    requires TrackedPEs(c0, d, m, st) && inTree(HookPath(o.prefix)) && !inTree(c0.pes[m.pe].startProcArgs)
    ensures TookOver(st, m.pe) && st.createdPE != m.pe
  {
    assert d.pes[m.pe].startProcArgs == HookPath(o.prefix);
  }

  lemma OwnQueueIsAdded(c0: Cluster, d: Cluster, m: Mark, st: Record)
    requires TrackedQueues(c0, d, m, st) && m.pe in c0.pes
    requires m.own in d.queues && m.own !in c0.queues && d.queues[m.own].peList != []
    ensures st.createdQueue == m.own && PEListAdd(m.own, m.pe) in st.peListAdds
  {
  }

  /** One such site: a single PE "make" of its own and nothing else. */
  lemma ForcedDefaultExample()
    ensures var make := PE("make", 4, "NONE", "NONE", "$round_robin", true, false, false, false);
      var c0 := Cluster(map[], map["make" := make], map[]);
      var o := Options("/s", "make", [], "", true);
      var inTree := (p: string) => p == StarterPath("/s") || p == HookPath("/s");
      && Clean(c0, MarkOf("/s", "make"), inTree)
      && Lists(Facts([], [make], []), c0)
      && Creates(c0, o)
  {
    var make := PE("make", 4, "NONE", "NONE", "$round_robin", true, false, false, false);
    assert |HookPath("/s")| > 4 && |StarterPath("/s")| > 4;
    assert WiredSet(Cluster(map[], map["make" := make], map[]), StarterPath("/s")) == {};
  }
}
