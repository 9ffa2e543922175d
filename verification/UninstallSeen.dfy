/**
 What an uninstall does to a site, in the site's own terms, for any cluster and any record:
 which queue, PEs and complex go, what every queue is left with, what keeps the tree in
 use, and exactly when uninstall refuses. Nothing here speaks of the plan's parts.
 */
module UninstallSeen {
  import opened Text
  import opened Sequences
  import opened Scheduler
  import opened Planner
  import opened InstallRecord
  import opened InstallSeen
  import opened Uninstaller
  import opened UninstallEffect
  import opened UninstallLaws

  /** An uninstall that went through: read, planned, nothing refused, and every call made. */
  ghost predicate Removed(c: Cluster, f: Facts, st: Record, inTree: string -> bool, extraPE: string, d: Cluster) {
    && Named(c) && Lists(f, c) && !HasRefusal(UninstallPlan(f, st, inTree, extraPE))
    && d == After(c, UninstallPlan(f, st, inTree, extraPE))
  }

  // ---------- Whose a PE is ----------

  /** The record has the start_proc_args a site's PE had before --force. */
  predicate Recorded(st: Record, pe: string) {
    exists i :: 0 <= i < |st.replaced| && st.replaced[i].target == PEKey(pe) && st.replaced[i].attr == StartProcArgs
  }

  /** The PE starts jobs in the tree, is slurm-shim, the one install recorded or the one asked
      for, and is not a site's that was taken over. */
  predicate OwnPE(c: Cluster, st: Record, inTree: string -> bool, extraPE: string, pe: string) {
    && pe in c.pes && inTree(c.pes[pe].startProcArgs) && !Recorded(st, pe)
    && (pe == DEFAULT_PE || pe == st.createdPE || pe == extraPE)
  }

  /** A site's PE that --force took over, and that still starts jobs in the tree. */
  predicate TakenOver(c: Cluster, st: Record, inTree: string -> bool, pe: string) {
    pe in c.pes && inTree(c.pes[pe].startProcArgs) && Recorded(st, pe)
  }

  lemma RecordedIs(st: Record, pe: string)
    ensures TookOver(st, pe) <==> Recorded(st, pe)
  {
    OldOfIsRecorded(st.replaced, PEKey(pe), StartProcArgs);
    if TookOver(st, pe) {
      var v := OldOf(st.replaced, PEKey(pe), StartProcArgs).value;
      var i :| 0 <= i < |st.replaced| && st.replaced[i] == Replaced(PEKey(pe), StartProcArgs, v);
    }
    if Recorded(st, pe) {
      var i :| 0 <= i < |st.replaced| && st.replaced[i].target == PEKey(pe) && st.replaced[i].attr == StartProcArgs;
      assert st.replaced[i] in st.replaced;
    }
  }

  lemma OursAre(c: Cluster, f: Facts, st: Record, inTree: string -> bool, extraPE: string)
    requires Named(c) && Lists(f, c)
    ensures forall pe :: pe in NamesOf(f.pes, Ours, st, inTree, extraPE) <==> OwnPE(c, st, inTree, extraPE, pe)
    ensures forall pe :: pe in NamesOf(f.pes, Restored, st, inTree, extraPE) <==> TakenOver(c, st, inTree, pe)
  {
    VerdictNames(f, c, Ours, st, inTree, extraPE);
    VerdictNames(f, c, Restored, st, inTree, extraPE);
    forall pe | pe in c.pes
      ensures TookOver(st, pe) <==> Recorded(st, pe)
    {
      RecordedIs(st, pe);
    }
  }

  // ---------- The queue that goes ----------

  /** q is no longer what install made: it starts jobs outside the tree, offers a PE that is
      not install's, or has a per-host pe_list entry. */
  predicate Rebuilt(c: Cluster, q: Queue, st: Record, inTree: string -> bool, extraPE: string) {
    || (q.starterMethod != "" && !inTree(q.starterMethod))
    || (exists i :: 0 <= i < |q.peList| && !OwnPE(c, st, inTree, extraPE, q.peList[i]))
    || q.peListOverrides != []
  }

  /** The queue install made goes: the record names it, and it is not rebuilt. */
  predicate Goes(c: Cluster, st: Record, inTree: string -> bool, extraPE: string) {
    && DEFAULT_QUEUE in c.queues && st.createdQueue == DEFAULT_QUEUE
    && !Rebuilt(c, c.queues[DEFAULT_QUEUE], st, inTree, extraPE)
  }

  lemma DeletedIs(c: Cluster, f: Facts, st: Record, inTree: string -> bool, extraPE: string)
    requires Named(c) && Lists(f, c)
    ensures var created := QueueToDelete(f.queues, st, NamesOf(f.pes, Ours, st, inTree, extraPE), inTree);
      created == if Goes(c, st, inTree, extraPE) then DEFAULT_QUEUE else ""
  {
    var ours := NamesOf(f.pes, Ours, st, inTree, extraPE);
    OursAre(c, f, st, inTree, extraPE);
    DeletedQueueExists(f, c, st, ours, inTree);
    if DEFAULT_QUEUE in c.queues {
      var q := c.queues[DEFAULT_QUEUE];
      assert CreatedByShim(q, ours, inTree) <==> !Rebuilt(c, q, st, inTree, extraPE);
    }
  }

  lemma {:induction false} QueueStaysThrough(c: Cluster, rows: seq<Change>, fails: seq<bool>, n: string)
    requires n in c.queues && forall ch | ch in rows && ch.kind == DeleteQueue :: ch.target != n
    ensures n in After(c, rows, fails).queues
    decreases |rows|
  {
    if rows != [] {
      assert rows[0] in rows;
      QueueStaysThrough(Next(c, rows[0], Head(fails)), rows[1..], Tail(fails), n);
    }
  }

  lemma TouchedStays(c: Cluster, st: Record, inTree: string -> bool, extraPE: string, ours: seq<string>,
                     rows: seq<Change>, fails: seq<bool>, n: string)
    requires n in c.queues && AllTouch(c, st, inTree, ours, rows)
    requires forall pe :: pe in ours <==> OwnPE(c, st, inTree, extraPE, pe)
    requires n != DEFAULT_QUEUE || st.createdQueue != DEFAULT_QUEUE || Rebuilt(c, c.queues[n], st, inTree, extraPE)
    ensures n in After(c, rows, fails).queues
  {
    forall ch | ch in rows && ch.kind == DeleteQueue
      ensures ch.target != n
    {
      assert Touches(c, st, inTree, ours, ch);
    }
    QueueStaysThrough(c, rows, fails, n);
  }

  /** Whatever calls fail, uninstall deletes no queue but slurm.q, and that one only if the
      record says install created it and the site has not rebuilt it since. */
  lemma RebuiltQueueStays(c: Cluster, f: Facts, st: Record, inTree: string -> bool, extraPE: string, fails: seq<bool>,
                          n: string)
    requires Named(c) && Lists(f, c) && n in c.queues
    requires n != DEFAULT_QUEUE || st.createdQueue != DEFAULT_QUEUE || Rebuilt(c, c.queues[n], st, inTree, extraPE)
    ensures n in After(c, UninstallPlan(f, st, inTree, extraPE), fails).queues
  {
    var ours := NamesOf(f.pes, Ours, st, inTree, extraPE);
    OursAre(c, f, st, inTree, extraPE);
    PlanTouches(f, c, st, inTree, extraPE);
    TouchedStays(c, st, inTree, extraPE, ours, UninstallPlan(f, st, inTree, extraPE), fails, n);
  }

  /** What an uninstall that went through has taken for install's own, and what it left. */
  ghost predicate Ending(c: Cluster, f: Facts, st: Record, inTree: string -> bool, extraPE: string, d: Cluster,
                         ours: seq<string>, restored: seq<string>, created: string)
  {
    && d.queues == QueuesLeft(c, created, ours, restored, st, inTree)
    && d.pes == RestoreNamed(PEsLeft(c, ours), restored, st)
    && d.complexes == ComplexesLeft(f, c, st, d.queues)
    && (forall pe :: pe in ours <==> OwnPE(c, st, inTree, extraPE, pe))
    && (forall pe :: pe in restored <==> TakenOver(c, st, inTree, pe))
    && created == (if Goes(c, st, inTree, extraPE) then DEFAULT_QUEUE else "")
    && Named(c) && Lists(f, c)
  }

  lemma Ends(c: Cluster, f: Facts, st: Record, inTree: string -> bool, extraPE: string, d: Cluster)
    returns (ours: seq<string>, restored: seq<string>, created: string)
    requires Removed(c, f, st, inTree, extraPE, d)
    ensures Ending(c, f, st, inTree, extraPE, d, ours, restored, created)
  {
    ours, restored := NamesOf(f.pes, Ours, st, inTree, extraPE), NamesOf(f.pes, Restored, st, inTree, extraPE);
    created := QueueToDelete(f.queues, st, ours, inTree);
    NoRefusalIs(UninstallPlan(f, st, inTree, extraPE));
    UninstallEnds(f, c, st, inTree, extraPE);
    OursAre(c, f, st, inTree, extraPE);
    DeletedIs(c, f, st, inTree, extraPE);
  }

  lemma QueueLeft(c: Cluster, created: string, ours: seq<string>, restored: seq<string>, st: Record,
                  inTree: string -> bool, n: string)
    requires n in c.queues
    ensures var left := QueuesLeft(c, created, ours, restored, st, inTree);
      && (n in left <==> n != created)
      && (n != created ==> left[n] == c.queues[n].(peList := left[n].peList, starterMethod := left[n].starterMethod))
      && (n != created ==> left[n].starterMethod == UnwiredStarter(c.queues[n], st, inTree))
      && (n != created ==>
            left[n].peList == Unadded(Unlisted(c.queues[n].peList, ours), c.queues[n].name, restored, st))
  {
  }

  /** And when nothing fails it does go then: the exact condition. */
  lemma QueueGoesIff(c: Cluster, f: Facts, st: Record, inTree: string -> bool, extraPE: string, d: Cluster, n: string)
    requires Removed(c, f, st, inTree, extraPE, d) && n in c.queues
    ensures n !in d.queues
      <==> n == DEFAULT_QUEUE == st.createdQueue && !Rebuilt(c, c.queues[n], st, inTree, extraPE)
  {
    var ours, restored, created := Ends(c, f, st, inTree, extraPE, d);
    QueueGone(c, f, st, inTree, extraPE, d, ours, restored, created, n);
  }

  lemma QueueGone(c: Cluster, f: Facts, st: Record, inTree: string -> bool, extraPE: string, d: Cluster,
                  ours: seq<string>, restored: seq<string>, created: string, n: string)
    requires Ending(c, f, st, inTree, extraPE, d, ours, restored, created) && n in c.queues
    ensures n !in d.queues
      <==> n == DEFAULT_QUEUE == st.createdQueue && !Rebuilt(c, c.queues[n], st, inTree, extraPE)
  {
    QueueLeft(c, created, ours, restored, st, inTree, n);
  }

  // ---------- The queues that stay ----------

  lemma {:induction false} UnaddedIff(list: seq<string>, q: string, names: seq<string>, st: Record)
    ensures forall y :: y in Unadded(list, q, names, st)
                        <==> y in list && !(y in names && PEListAdd(q, y) in st.peListAdds)
    decreases |names|
  {
    if names != [] {
      var next := if PEListAdd(q, names[0]) in st.peListAdds then Without(list, names[0]) else list;
      WithoutMembers(list, names[0]);
      UnaddedIff(next, q, names[1..], st);
      assert forall y :: y in names <==> y == names[0] || y in names[1..];
    }
  }

  /** A queue that stays offers what it offered, but for install's own PEs and those install
      added of a site's; nothing but its pe_list and its starter changes. */
  lemma QueueAfterUninstall(c: Cluster, f: Facts, st: Record, inTree: string -> bool, extraPE: string, d: Cluster,
                            n: string)
    requires Removed(c, f, st, inTree, extraPE, d) && n in d.queues
    ensures n in c.queues
    ensures d.queues[n] == c.queues[n].(peList := d.queues[n].peList, starterMethod := d.queues[n].starterMethod)
    ensures forall pe :: pe in d.queues[n].peList <==>
                           && pe in c.queues[n].peList && !OwnPE(c, st, inTree, extraPE, pe)
                           && !(TakenOver(c, st, inTree, pe) && PEListAdd(n, pe) in st.peListAdds)
  {
    var ours, restored, created := Ends(c, f, st, inTree, extraPE, d);
    QueueKept(c, f, st, inTree, extraPE, d, ours, restored, created, n);
  }

  lemma QueueKept(c: Cluster, f: Facts, st: Record, inTree: string -> bool, extraPE: string, d: Cluster,
                  ours: seq<string>, restored: seq<string>, created: string, n: string)
    requires Ending(c, f, st, inTree, extraPE, d, ours, restored, created) && n in d.queues
    ensures n in c.queues
    ensures d.queues[n] == c.queues[n].(peList := d.queues[n].peList, starterMethod := d.queues[n].starterMethod)
    ensures forall pe :: pe in d.queues[n].peList <==>
                           && pe in c.queues[n].peList && !OwnPE(c, st, inTree, extraPE, pe)
                           && !(TakenOver(c, st, inTree, pe) && PEListAdd(n, pe) in st.peListAdds)
  {
    QueueLeft(c, created, ours, restored, st, inTree, n);
    UnlistedMembers(c.queues[n].peList, ours);
    UnaddedIff(Unlisted(c.queues[n].peList, ours), n, restored, st);
  }

  lemma {:induction false} FirstOldIs(rs: seq<Replaced>, target: string, attr: Attr, i: nat)
    requires i < |rs| && rs[i].target == target && rs[i].attr == attr
    requires forall j | 0 <= j < i :: !(rs[j].target == target && rs[j].attr == attr)
    ensures OldOf(rs, target, attr) == Some(rs[i].prev)
  {
    if i > 0 {
      assert !(rs[0].target == target && rs[0].attr == attr);
      FirstOldIs(rs[1..], target, attr, i - 1);
    }
  }

  /** The first value recorded for a queue's starter, if there is one. */
  ghost predicate FirstStarter(st: Record, n: string, v: Option<string>) {
    if v.None? then forall r | r in st.replaced :: r.target != QueueKey(n) || r.attr != StarterMethod
    else exists i ::
           && 0 <= i < |st.replaced| && st.replaced[i] == Replaced(QueueKey(n), StarterMethod, v.value)
           && forall j | 0 <= j < i :: st.replaced[j].target != QueueKey(n) || st.replaced[j].attr != StarterMethod
  }

  lemma OldStarterIs(st: Record, n: string, v: Option<string>)
    requires FirstStarter(st, n, v)
    ensures OldOf(st.replaced, QueueKey(n), StarterMethod) == v
  {
    OldOfIsRecorded(st.replaced, QueueKey(n), StarterMethod);
    if v.Some? {
      var i :|
        && 0 <= i < |st.replaced| && st.replaced[i] == Replaced(QueueKey(n), StarterMethod, v.value)
        && forall j | 0 <= j < i :: st.replaced[j].target != QueueKey(n) || st.replaced[j].attr != StarterMethod;
      FirstOldIs(st.replaced, QueueKey(n), StarterMethod, i);
    }
  }

  /** A starter outside the tree stays; one in the tree becomes the first value recorded for
      the queue, and none if there is no record or it says NONE. */
  lemma StarterAfterUninstall(c: Cluster, f: Facts, st: Record, inTree: string -> bool, extraPE: string, d: Cluster,
                              n: string, v: Option<string>)
    requires Removed(c, f, st, inTree, extraPE, d) && n in d.queues && n in c.queues && FirstStarter(st, n, v)
    ensures var was := c.queues[n].starterMethod;
      d.queues[n].starterMethod ==
        if was == "" || !inTree(was) then was
        else if v.None? || EqualFold(v.value, "NONE") then "" else v.value
  {
    var ours, restored, created := Ends(c, f, st, inTree, extraPE, d);
    StarterKept(c, f, st, inTree, extraPE, d, ours, restored, created, n, v);
  }

  lemma StarterKept(c: Cluster, f: Facts, st: Record, inTree: string -> bool, extraPE: string, d: Cluster,
                    ours: seq<string>, restored: seq<string>, created: string, n: string,
                    v: Option<string>)
    requires Ending(c, f, st, inTree, extraPE, d, ours, restored, created) && n in d.queues && n in c.queues
    requires FirstStarter(st, n, v)
    ensures var was := c.queues[n].starterMethod;
      d.queues[n].starterMethod ==
        if was == "" || !inTree(was) then was
        else if v.None? || EqualFold(v.value, "NONE") then "" else v.value
  {
    QueueLeft(c, created, ours, restored, st, inTree, n);
    OldStarterIs(st, n, v);
    StarterLeft(c.queues[n], st, inTree, v);
  }

  lemma StarterLeft(q: Queue, st: Record, inTree: string -> bool, v: Option<string>)
    requires OldOf(st.replaced, QueueKey(q.name), StarterMethod) == v
    ensures UnwiredStarter(q, st, inTree) ==
      if q.starterMethod == "" || !inTree(q.starterMethod) then q.starterMethod
      else if v.None? || EqualFold(v.value, "NONE") then "" else v.value
  {
    assert FromNone("NONE") == "";
  }

  // ---------- The PEs and the complex ----------

  /** Exactly install's own PEs go, and no PE that starts outside the tree changes. */
  lemma PEGoesIff(c: Cluster, f: Facts, st: Record, inTree: string -> bool, extraPE: string, d: Cluster, pe: string)
    requires Removed(c, f, st, inTree, extraPE, d) && pe in c.pes
    ensures pe !in d.pes <==> OwnPE(c, st, inTree, extraPE, pe)
    ensures !inTree(c.pes[pe].startProcArgs) ==> pe in d.pes && d.pes[pe] == c.pes[pe]
  {
    var ours, restored, created := Ends(c, f, st, inTree, extraPE, d);
    PEKept(c, f, st, inTree, extraPE, d, ours, restored, created, pe);
  }

  lemma PEKept(c: Cluster, f: Facts, st: Record, inTree: string -> bool, extraPE: string, d: Cluster,
               ours: seq<string>, restored: seq<string>, created: string, pe: string)
    requires Ending(c, f, st, inTree, extraPE, d, ours, restored, created) && pe in c.pes
    ensures pe !in d.pes <==> OwnPE(c, st, inTree, extraPE, pe)
    ensures !inTree(c.pes[pe].startProcArgs) ==> pe in d.pes && d.pes[pe] == c.pes[pe]
  {
    PELeft(c, ours, restored, st, pe);
  }

  lemma PELeft(c: Cluster, ours: seq<string>, restored: seq<string>, st: Record, pe: string)
    requires pe in c.pes
    ensures var left := RestoreNamed(PEsLeft(c, ours), restored, st);
      && (pe !in left <==> pe in ours)
      && (pe !in ours && pe !in restored ==> left[pe] == c.pes[pe])
  {
  }

  /** The complex goes exactly when the record says install created it, it still is FORCED,
      and no queue that stays names it; no other complex changes. */
  lemma ComplexGoesIff(c: Cluster, f: Facts, st: Record, inTree: string -> bool, extraPE: string, d: Cluster, x: string)
    requires Removed(c, f, st, inTree, extraPE, d) && x in c.complexes
    ensures x in d.complexes ==> d.complexes[x] == c.complexes[x]
    ensures x !in d.complexes <==>
      && x == SHIM_COMPLEX == st.createdComplex && EqualFold(c.complexes[x].requestable, "FORCED")
      && forall n | n in d.queues :: !NamesComplex(d.queues[n], x)
  {
    var ours, restored, created := Ends(c, f, st, inTree, extraPE, d);
    ComplexKept(c, f, st, inTree, extraPE, d, ours, restored, created, x);
  }

  lemma ComplexKept(c: Cluster, f: Facts, st: Record, inTree: string -> bool, extraPE: string, d: Cluster,
                    ours: seq<string>, restored: seq<string>, created: string, x: string)
    requires Ending(c, f, st, inTree, extraPE, d, ours, restored, created) && x in c.complexes
    ensures x in d.complexes ==> d.complexes[x] == c.complexes[x]
    ensures x !in d.complexes <==>
      && x == SHIM_COMPLEX == st.createdComplex && EqualFold(c.complexes[x].requestable, "FORCED")
      && forall n | n in d.queues :: !NamesComplex(d.queues[n], x)
  {
    ComplexLeft(f, c, st, d.queues, x);
  }

  lemma ComplexLeft(f: Facts, c: Cluster, st: Record, queues: map<string, Queue>, x: string)
    requires Named(c) && Lists(f, c) && x in c.complexes
    ensures var left := ComplexesLeft(f, c, st, queues);
      && (x in left ==> left[x] == c.complexes[x])
      && (x !in left <==>
            && x == SHIM_COMPLEX == st.createdComplex && EqualFold(c.complexes[x].requestable, "FORCED")
            && forall n | n in queues :: !NamesComplex(queues[n], x))
  {
    Reading(f, c, SHIM_COMPLEX);
  }

  // ---------- Refusals ----------

  /** A PE in the tree that is neither install's own nor recorded. */
  predicate UnknownPE(c: Cluster, st: Record, inTree: string -> bool, extraPE: string) {
    exists pe :: pe in c.pes && inTree(c.pes[pe].startProcArgs) && !Recorded(st, pe)
                 && pe != DEFAULT_PE && pe != st.createdPE && pe != extraPE
  }

  /** A queue offers one of install's own PEs on some host by an entry of its own. */
  ghost predicate OfferedPerHost(c: Cluster, st: Record, inTree: string -> bool, extraPE: string) {
    exists n, ov, pe :: n in c.queues && ov in c.queues[n].peListOverrides && pe in OverrideWords(ov)
                        && OwnPE(c, st, inTree, extraPE, pe)
  }

  /** A queue that stays starts jobs in the tree on some host by an entry of its own. */
  ghost predicate StartedPerHost(c: Cluster, st: Record, inTree: string -> bool, extraPE: string) {
    exists n, ov :: n in c.queues && ov in c.queues[n].starterOverrides && OverrideInTree(ov, inTree)
                    && !(n == DEFAULT_QUEUE && Goes(c, st, inTree, extraPE))
  }

  /** Some value recorded for the PE runs as another user. */
  ghost predicate OtherUserRecorded(st: Record, pe: string) {
    exists r :: r in st.replaced && r.target == PEKey(pe) && RunsAsOtherUser(r.prev)
  }

  /** A PE that was taken over had a value that runs as another user. */
  ghost predicate RanAsOther(c: Cluster, st: Record, inTree: string -> bool) {
    exists pe :: TakenOver(c, st, inTree, pe) && OtherUserRecorded(st, pe)
  }

  lemma UnknownRefuse(c: Cluster, f: Facts, st: Record, inTree: string -> bool, extraPE: string)
    requires Named(c) && Lists(f, c)
    ensures HasRefusal(FlatMap(f.pes, UnknownRow(st, inTree, extraPE))) <==> UnknownPE(c, st, inTree, extraPE)
  {
    var rows := UnknownRow(st, inTree, extraPE);
    RefusedAmong(f.pes, rows);
    forall p | p in f.pes
      ensures HasRefusal(rows(p)) <==> inTree(p.startProcArgs) && !Recorded(st, p.name)
                                       && p.name != DEFAULT_PE && p.name != st.createdPE && p.name != extraPE
    {
      RecordedIs(st, p.name);
      assert rows(p) != [] ==> rows(p)[0].kind == Refused;
    }
    if UnknownPE(c, st, inTree, extraPE) {
      var pe :| pe in c.pes && inTree(c.pes[pe].startProcArgs) && !Recorded(st, pe)
                && pe != DEFAULT_PE && pe != st.createdPE && pe != extraPE;
      assert c.pes[pe] in f.pes && HasRefusal(rows(c.pes[pe]));
    }
  }

  lemma NoneOfKind(rows: seq<Change>)
    requires forall ch | ch in rows :: ch.kind != Refused
    ensures !HasRefusal(rows)
  {
    assert forall i | 0 <= i < |rows| :: rows[i] in rows;
  }

  lemma OneRefusal(rows: seq<Change>, i: nat)
    requires i < |rows| && rows[i].kind == Refused
    ensures HasRefusal(rows)
  {
  }

  lemma OverrideRefuses(q: Queue, ours: seq<string>)
    ensures HasRefusal(FlatMap(q.peListOverrides, OverrideRefusal(q, ours)))
      <==> exists ov, pe :: ov in q.peListOverrides && pe in ours && pe in OverrideWords(ov)
  {
    RefusedAmong(q.peListOverrides, OverrideRefusal(q, ours));
    forall ov | ov in q.peListOverrides
      ensures HasRefusal(OverrideRefusal(q, ours)(ov)) <==> exists pe :: pe in ours && pe in OverrideWords(ov)
    {
      HitsRefuse(q, ov, ours);
    }
  }

  lemma HitsRefuse(q: Queue, ov: string, ours: seq<string>)
    ensures HasRefusal(OverrideRefusal(q, ours)(ov)) <==> (exists pe :: pe in ours && pe in OverrideWords(ov))
  {
    var hit := OverrideHit(q, ov);
    RefusedAmong(ours, hit);
    forall pe | pe in ours
      ensures HasRefusal(hit(pe)) <==> pe in OverrideWords(ov)
    {
      if pe in OverrideWords(ov) {
        OneRefusal(hit(pe), 0);
      }
    }
  }

  lemma StartersRefuse(q: Queue, inTree: string -> bool)
    ensures HasRefusal(FlatMap(q.starterOverrides, StarterRefusal(q, inTree)))
      <==> exists ov :: ov in q.starterOverrides && OverrideInTree(ov, inTree)
  {
    var rows := StarterRefusal(q, inTree);
    RefusedAmong(q.starterOverrides, rows);
    forall ov | ov in q.starterOverrides
      ensures HasRefusal(rows(ov)) <==> OverrideInTree(ov, inTree)
    {
      if OverrideInTree(ov, inTree) {
        OneRefusal(rows(ov), 0);
      }
    }
  }

  lemma FiveRefuse(a: seq<Change>, b: seq<Change>, c: seq<Change>, d: seq<Change>, e: seq<Change>)
    requires !HasRefusal(a) && !HasRefusal(b) && !HasRefusal(e)
    ensures HasRefusal(a + b + c + d + e) <==> HasRefusal(c) || HasRefusal(d)
  {
    RefusalParts(a, b, c);
    RefusalParts(a + b + c, d, e);
  }

  lemma RemovalsRefuseNone(q: Queue, ours: seq<string>, restored: seq<string>, st: Record, inTree: string -> bool)
    ensures !HasRefusal(FlatMap(ours, OursRemoval(q))) && !HasRefusal(FlatMap(restored, RestoredRemoval(q, st)))
    ensures !HasRefusal(StarterRow(q, st, inTree))
  {
    FlatMapMembers(ours, OursRemoval(q));
    FlatMapMembers(restored, RestoredRemoval(q, st));
    NoneOfKind(FlatMap(ours, OursRemoval(q)));
    NoneOfKind(FlatMap(restored, RestoredRemoval(q, st)));
  }

  /** A queue that is unwired is refused over its own entries for some hosts. */
  ghost predicate RefusedByEntry(q: Queue, ours: seq<string>, inTree: string -> bool) {
    || (exists ov, pe :: ov in q.peListOverrides && pe in ours && pe in OverrideWords(ov))
    || (exists ov :: ov in q.starterOverrides && OverrideInTree(ov, inTree))
  }

  lemma UnwiringRefuses(q: Queue, ours: seq<string>, restored: seq<string>, st: Record, inTree: string -> bool)
    ensures HasRefusal(UnwireRows(q, ours, restored, st, inTree)) <==> RefusedByEntry(q, ours, inTree)
  {
    RemovalsRefuseNone(q, ours, restored, st, inTree);
    OverrideRefuses(q, ours);
    StartersRefuse(q, inTree);
    FiveRefuse(FlatMap(ours, OursRemoval(q)), FlatMap(restored, RestoredRemoval(q, st)),
               FlatMap(q.peListOverrides, OverrideRefusal(q, ours)),
               FlatMap(q.starterOverrides, StarterRefusal(q, inTree)), StarterRow(q, st, inTree));
  }

  lemma QueueRowsRefuse(qs: seq<Queue>, created: string, ours: seq<string>, restored: seq<string>, st: Record,
                        inTree: string -> bool)
    ensures HasRefusal(FlatMap(qs, QueueRows(created, ours, restored, st, inTree)))
       <==> exists q :: q in qs && q.name != created && RefusedByEntry(q, ours, inTree)
  {
    var rows := QueueRows(created, ours, restored, st, inTree);
    RefusedAmong(qs, rows);
    forall q | q in qs
      ensures HasRefusal(rows(q)) <==> q.name != created && RefusedByEntry(q, ours, inTree)
    {
      UnwiringRefuses(q, ours, restored, st, inTree);
    }
  }

  lemma EntriesRefuse(c: Cluster, f: Facts, st: Record, inTree: string -> bool, extraPE: string, ours: seq<string>,
                      created: string)
    requires Named(c) && Lists(f, c) && forall pe :: pe in ours <==> OwnPE(c, st, inTree, extraPE, pe)
    requires created == if Goes(c, st, inTree, extraPE) then DEFAULT_QUEUE else ""
    ensures (exists q :: q in f.queues && q.name != created && RefusedByEntry(q, ours, inTree))
       <==> OfferedPerHost(c, st, inTree, extraPE) || StartedPerHost(c, st, inTree, extraPE)
  {
    if OfferedPerHost(c, st, inTree, extraPE) {
      var n, ov, pe :| n in c.queues && ov in c.queues[n].peListOverrides && pe in OverrideWords(ov)
                       && OwnPE(c, st, inTree, extraPE, pe);
      assert c.queues[n] in f.queues && n != created && RefusedByEntry(c.queues[n], ours, inTree);
    }
    if StartedPerHost(c, st, inTree, extraPE) {
      var n, ov :| n in c.queues && ov in c.queues[n].starterOverrides && OverrideInTree(ov, inTree)
                   && !(n == DEFAULT_QUEUE && Goes(c, st, inTree, extraPE));
      assert c.queues[n] in f.queues && n != created && RefusedByEntry(c.queues[n], ours, inTree);
    }
  }

  lemma QueuesRefuse(c: Cluster, f: Facts, st: Record, inTree: string -> bool, extraPE: string, ours: seq<string>,
                     restored: seq<string>, created: string)
    requires Named(c) && Lists(f, c) && forall pe :: pe in ours <==> OwnPE(c, st, inTree, extraPE, pe)
    requires created == if Goes(c, st, inTree, extraPE) then DEFAULT_QUEUE else ""
    ensures HasRefusal(FlatMap(f.queues, QueueRows(created, ours, restored, st, inTree)))
       <==> OfferedPerHost(c, st, inTree, extraPE) || StartedPerHost(c, st, inTree, extraPE)
  {
    QueueRowsRefuse(f.queues, created, ours, restored, st, inTree);
    EntriesRefuse(c, f, st, inTree, extraPE, ours, created);
  }

  lemma RestoringRefuses(c: Cluster, st: Record, inTree: string -> bool, restored: seq<string>)
    requires forall pe :: pe in restored <==> TakenOver(c, st, inTree, pe)
    ensures HasRefusal(FlatMap(restored, RestoreRows(st))) <==> RanAsOther(c, st, inTree)
  {
    var rows := RestoreRows(st);
    RefusedAmong(restored, rows);
    forall pe | pe in restored
      ensures HasRefusal(rows(pe)) <==> OtherUserRecorded(st, pe)
    {
      PERestoreRefuses(pe, st);
    }
  }

  lemma PERestoreRefuses(pe: string, st: Record)
    ensures HasRefusal(RestoreRows(st)(pe)) <==> OtherUserRecorded(st, pe)
  {
    var bad := (r: Replaced) => RunsAsOtherUser(r.prev);
    AttrsRefuse(pe, AttrsOf(st.replaced, PEKey(pe)), bad);
    RecordedBad(pe, st, bad);
  }

  lemma RecordedBad(pe: string, st: Record, bad: Replaced -> bool)
    requires forall r :: bad(r) <==> RunsAsOtherUser(r.prev)
    ensures OtherUserRecorded(st, pe) <==> exists r :: r in AttrsOf(st.replaced, PEKey(pe)) && bad(r)
  {
    AttrsOfAre(st.replaced, PEKey(pe));
    if r :| r in st.replaced && r.target == PEKey(pe) && RunsAsOtherUser(r.prev) {
      assert r in AttrsOf(st.replaced, PEKey(pe)) && bad(r);
    }
  }

  lemma AttrsRefuse(pe: string, rs: seq<Replaced>, bad: Replaced -> bool)
    requires forall r :: bad(r) <==> RunsAsOtherUser(r.prev)
    ensures HasRefusal(FlatMap(rs, RestoreRow(pe))) <==> exists r :: r in rs && bad(r)
  {
    RefusedAmong(rs, RestoreRow(pe));
    forall r | r in rs
      ensures HasRefusal(RestoreRow(pe)(r)) <==> bad(r)
    {
      ValueRefuses(pe, r);
    }
  }

  lemma ValueRefuses(pe: string, r: Replaced)
    ensures HasRefusal(RestoreRow(pe)(r)) <==> RunsAsOtherUser(r.prev)
  {
    if RunsAsOtherUser(r.prev) {
      OneRefusal(RestoreRow(pe)(r), 0);
    }
  }

  lemma SixRefusals(r0: seq<Change>, r1: seq<Change>, r2: seq<Change>, r3: seq<Change>, r4: seq<Change>,
                    r5: seq<Change>)
    requires !HasRefusal(r2) && !HasRefusal(r3) && !HasRefusal(r4)
    ensures HasRefusal(r0 + r1 + r2 + r3 + r4 + r5) <==> HasRefusal(r0) || HasRefusal(r1) || HasRefusal(r5)
  {
    RefusalParts(r0, r1, r2);
    RefusalParts(r0 + r1 + r2, r3, r4);
    RefusalParts(r0 + r1 + r2 + r3 + r4, r5, []);
    assert r0 + r1 + r2 + r3 + r4 + r5 + [] == r0 + r1 + r2 + r3 + r4 + r5;
  }

  lemma DeletionsRefuseNone(f: Facts, st: Record, ours: seq<string>, created: string)
    ensures !HasRefusal(FlatMap(ours, DeletePERow()))
    ensures !HasRefusal(DeleteQueueRows(created)) && !HasRefusal(DeleteComplexRows(f, st))
  {
    FlatMapMembers(ours, DeletePERow());
    NoneOfKind(FlatMap(ours, DeletePERow()));
  }

  lemma PartsRefuse(f: Facts, st: Record, inTree: string -> bool, extraPE: string, ours: seq<string>,
                    restored: seq<string>, created: string)
    requires ours == NamesOf(f.pes, Ours, st, inTree, extraPE)
    requires restored == NamesOf(f.pes, Restored, st, inTree, extraPE)
    requires created == QueueToDelete(f.queues, st, ours, inTree)
    ensures HasRefusal(UninstallPlan(f, st, inTree, extraPE)) <==>
      || HasRefusal(FlatMap(f.pes, UnknownRow(st, inTree, extraPE)))
      || HasRefusal(FlatMap(f.queues, QueueRows(created, ours, restored, st, inTree)))
      || HasRefusal(FlatMap(restored, RestoreRows(st)))
  {
    DeletionsRefuseNone(f, st, ours, created);
    SixRefusals(FlatMap(f.pes, UnknownRow(st, inTree, extraPE)),
                FlatMap(f.queues, QueueRows(created, ours, restored, st, inTree)), DeleteQueueRows(created),
                FlatMap(ours, DeletePERow()), DeleteComplexRows(f, st), FlatMap(restored, RestoreRows(st)));
  }

  /** Uninstall refuses exactly over a PE it does not know, a per-host entry that offers its PE
      or starts in its tree, or a recorded value that runs as another user. */
  lemma UninstallRefusesIff(c: Cluster, f: Facts, st: Record, inTree: string -> bool, extraPE: string)
    requires Named(c) && Lists(f, c)
    ensures HasRefusal(UninstallPlan(f, st, inTree, extraPE)) <==>
      || UnknownPE(c, st, inTree, extraPE) || OfferedPerHost(c, st, inTree, extraPE)
      || StartedPerHost(c, st, inTree, extraPE) || RanAsOther(c, st, inTree)
  {
    var ours, restored := NamesOf(f.pes, Ours, st, inTree, extraPE), NamesOf(f.pes, Restored, st, inTree, extraPE);
    OursAre(c, f, st, inTree, extraPE);
    DeletedIs(c, f, st, inTree, extraPE);
    PartsRefuse(f, st, inTree, extraPE, ours, restored, QueueToDelete(f.queues, st, ours, inTree));
    UnknownRefuse(c, f, st, inTree, extraPE);
    QueuesRefuse(c, f, st, inTree, extraPE, ours, restored, QueueToDelete(f.queues, st, ours, inTree));
    RestoringRefuses(c, st, inTree, restored);
  }

  // ---------- What keeps the tree in use ----------

  /** The queue starts jobs in the tree on no host. */
  ghost predicate StartsOutside(q: Queue, inTree: string -> bool) {
    && (q.starterMethod == "" || !inTree(q.starterMethod))
    && forall ov | ov in q.starterOverrides :: !OverrideInTree(ov, inTree)
  }

  /** No queue starts jobs in the tree, and no PE does. */
  ghost predicate NothingPointsIn(c: Cluster, inTree: string -> bool) {
    && (forall n | n in c.queues :: StartsOutside(c.queues[n], inTree))
    && (forall n | n in c.pes :: !inTree(c.pes[n].startProcArgs))
  }

  /** Nothing is listed as pointing into the tree exactly when nothing does. */
  lemma NothingPointsInIff(c: Cluster, f: Facts, inTree: string -> bool)
    requires Lists(f, c)
    ensures ReferencesOf(f, inTree) == [] <==> NothingPointsIn(c, inTree)
  {
    if ReferencesOf(f, inTree) == [] {
      ListedNowhere(c, f, inTree);
    } else if NothingPointsIn(c, inTree) {
      NoReferences(f, c, inTree);
    }
  }

  lemma ListedNowhere(c: Cluster, f: Facts, inTree: string -> bool)
    requires FlatMap(f.queues, QueueReferences(inTree)) == [] && FlatMap(f.pes, PEReference(inTree)) == []
    requires Lists(f, c)
    ensures NothingPointsIn(c, inTree)
  {
    forall n | n in c.queues
      ensures StartsOutside(c.queues[n], inTree)
    {
      PointsNowhere(f.queues, QueueReferences(inTree), c.queues[n]);
      QueuePointsNowhere(c.queues[n], inTree);
    }
    forall n | n in c.pes
      ensures !inTree(c.pes[n].startProcArgs)
    {
      PointsNowhere(f.pes, PEReference(inTree), c.pes[n]);
    }
  }

  lemma PointsNowhere<X>(xs: seq<X>, refs: X -> seq<string>, x: X)
    requires FlatMap(xs, refs) == [] && x in xs
    ensures refs(x) == []
  {
    FlatMapMembers(xs, refs);
    HeadIn(refs(x));
  }

  lemma QueuePointsNowhere(q: Queue, inTree: string -> bool)
    requires QueueReferences(inTree)(q) == []
    ensures StartsOutside(q, inTree)
  {
    forall ov | ov in q.starterOverrides
      ensures !OverrideInTree(ov, inTree)
    {
      PointsNowhere(q.starterOverrides, OverrideReference(q, inTree), ov);
    }
  }
}
