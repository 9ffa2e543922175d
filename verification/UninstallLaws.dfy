/**
 Uninstall is complete, and leaves everything else alone -- for any cluster and
 any install record, including one that matches nothing.
 */
module UninstallLaws {
  import opened Text
  import opened Sequences
  import opened Scheduler
  import opened Planner
  import opened InstallRecord
  import opened Uninstaller
  import opened UninstallEffect

  lemma NoRefusalIs(rows: seq<Change>)
    ensures NoRefusal(rows) <==> !HasRefusal(rows)
  {
    if !NoRefusal(rows) {
      var ch :| ch in rows && ch.kind == Refused;
      var i :| 0 <= i < |rows| && rows[i] == ch;
    }
  }

  // ---------- Complete ----------

  /** No value the record would write back lies in the tree. */
  ghost predicate RecordOutside(st: Record, inTree: string -> bool) {
    forall r | r in st.replaced :: !inTree(OrNone(r.prev))
  }

  lemma {:induction false} OldOfIsRecorded(rs: seq<Replaced>, target: string, attr: Attr)
    ensures var v := OldOf(rs, target, attr);
      v.Some? ==> Replaced(target, attr, v.value) in rs
    ensures OldOf(rs, target, attr).None? ==> forall r | r in rs :: r.target != target || r.attr != attr
  {
    if rs != [] && !(rs[0].target == target && rs[0].attr == attr) {
      OldOfIsRecorded(rs[1..], target, attr);
      assert forall r :: r in rs <==> r == rs[0] || r in rs[1..];
    }
  }

  lemma {:induction false} AttrsOfAre(rs: seq<Replaced>, target: string)
    ensures forall r :: r in AttrsOf(rs, target) <==> r in rs && r.target == target
  {
    if rs != [] {
      AttrsOfAre(rs[1..], target);
      assert forall r :: r in rs <==> r == rs[0] || r in rs[1..];
    }
  }

  /** Restored start_proc_args are a recorded value. */
  lemma StartOfWrite(pe: PE, attr: Attr, value: string)
    ensures var w := WithPEAttr(pe, attr, value); var pe1 := if w.Some? then w.value else pe;
      pe1.startProcArgs == if attr == StartProcArgs then value else pe.startProcArgs
  {
  }

  lemma {:induction false} RestoredStart(pe: PE, rs: seq<Replaced>)
    ensures var s := RestoredAttrs(pe, rs).startProcArgs;
      || (s == pe.startProcArgs && forall r | r in rs :: r.attr != StartProcArgs)
      || (exists r :: r in rs && r.attr == StartProcArgs && s == OrNone(r.prev))
    decreases |rs|
  {
    if rs != [] {
      var w := WithPEAttr(pe, rs[0].attr, OrNone(rs[0].prev));
      var pe1 := if w.Some? then w.value else pe;
      RestoredStart(pe1, rs[1..]);
      StartOfWrite(pe, rs[0].attr, OrNone(rs[0].prev));
      assert forall r :: r in rs <==> r == rs[0] || r in rs[1..];
    }
  }

  lemma StarterOutside(q: Queue, st: Record, inTree: string -> bool)
    requires RecordOutside(st, inTree)
    ensures var s := UnwiredStarter(q, st, inTree); s == "" || !inTree(s)
  {
    var r := OldOf(st.replaced, QueueKey(q.name), StarterMethod);
    OldOfIsRecorded(st.replaced, QueueKey(q.name), StarterMethod);
    if r.Some? {
      assert Replaced(QueueKey(q.name), StarterMethod, r.value) in st.replaced;
    }
    assert FromNone("NONE") == "";
  }

  lemma RestoredOutside(pe: PE, st: Record, inTree: string -> bool)
    requires RecordOutside(st, inTree) && TookOver(st, pe.name)
    ensures !inTree(RestoredPE(pe, st).startProcArgs)
  {
    var rs := AttrsOf(st.replaced, PEKey(pe.name));
    OldOfIsRecorded(st.replaced, PEKey(pe.name), StartProcArgs);
    AttrsOfAre(st.replaced, PEKey(pe.name));
    RestoredStart(pe, rs);
  }

  lemma NoReferences(f: Facts, c: Cluster, inTree: string -> bool)
    requires Lists(f, c)
    requires forall n | n in c.queues :: !StartsInTree(c.queues[n], inTree)
    requires forall n, ov | n in c.queues && ov in c.queues[n].starterOverrides :: !OverrideInTree(ov, inTree)
    requires forall n | n in c.pes :: !inTree(c.pes[n].startProcArgs)
    ensures ReferencesOf(f, inTree) == []
  {
    FlatMapMembers(f.queues, QueueReferences(inTree));
    FlatMapMembers(f.pes, PEReference(inTree));
    forall q | q in f.queues
      ensures QueueReferences(inTree)(q) == []
    {
      FlatMapMembers(q.starterOverrides, OverrideReference(q, inTree));
      var rows := FlatMap(q.starterOverrides, OverrideReference(q, inTree));
      HeadIn(rows);
    }
    var refs := ReferencesOf(f, inTree);
    HeadIn(refs);
  }

  lemma EndedOutside(f: Facts, c: Cluster, st: Record, inTree: string -> bool, extraPE: string)
    requires Named(c) && Lists(f, c) && RecordOutside(st, inTree)
    requires forall n | n in c.pes :: Judge(c.pes[n], st, inTree, extraPE) != Unknown
    ensures forall n | n in Ended(f, c, st, inTree, extraPE).pes ::
      !inTree(Ended(f, c, st, inTree, extraPE).pes[n].startProcArgs)
  {
    VerdictNames(f, c, Ours, st, inTree, extraPE);
    VerdictNames(f, c, Restored, st, inTree, extraPE);
    var d := Ended(f, c, st, inTree, extraPE);
    var restored := NamesOf(f.pes, Restored, st, inTree, extraPE);
    forall n | n in d.pes
      ensures !inTree(d.pes[n].startProcArgs)
    {
      assert n in c.pes && Judge(c.pes[n], st, inTree, extraPE) != Ours;
      if n in restored {
        RestoredOutside(c.pes[n], st, inTree);
      }
    }
  }

  lemma QueuesOutside(c: Cluster, created: string, ours: seq<string>, restored: seq<string>, st: Record,
                      inTree: string -> bool)
    requires RecordOutside(st, inTree)
    requires forall n | n in c.queues && n != created :: NoOverrides(c.queues[n], ours, inTree)
    ensures var left := QueuesLeft(c, created, ours, restored, st, inTree);
      && (forall n | n in left :: !StartsInTree(left[n], inTree))
      && (forall n, ov | n in left && ov in left[n].starterOverrides :: !OverrideInTree(ov, inTree))
  {
    forall n | n in c.queues
      ensures var s := UnwiredStarter(c.queues[n], st, inTree); s == "" || !inTree(s)
    {
      StarterOutside(c.queues[n], st, inTree);
    }
  }

  /** After an uninstall without refusals nothing points into the tree, and every
      PE that is this install's own is gone with no queue left offering it. */
  lemma UninstallIsComplete(f: Facts, c: Cluster, st: Record, inTree: string -> bool, extraPE: string, f2: Facts)
    requires Named(c) && Lists(f, c)
    requires !HasRefusal(UninstallPlan(f, st, inTree, extraPE))
    requires RecordOutside(st, inTree)
    requires Lists(f2, After(c, UninstallPlan(f, st, inTree, extraPE)))
    ensures ReferencesOf(f2, inTree) == []
    ensures var d := After(c, UninstallPlan(f, st, inTree, extraPE));
      forall pe | pe in c.pes && Judge(c.pes[pe], st, inTree, extraPE) == Ours ::
        pe !in d.pes && forall n | n in d.queues :: !Offers(d.queues[n], pe)
  {
    NoRefusalIs(UninstallPlan(f, st, inTree, extraPE));
    UninstallEnds(f, c, st, inTree, extraPE);
    OursAreGone(f, c, st, inTree, extraPE);
    NothingPointsIn(f, c, st, inTree, extraPE, f2);
  }

  lemma OursAreGone(f: Facts, c: Cluster, st: Record, inTree: string -> bool, extraPE: string)
    requires Named(c) && Lists(f, c)
    requires var ours := NamesOf(f.pes, Ours, st, inTree, extraPE);
      forall n | n in c.queues && n != QueueToDelete(f.queues, st, ours, inTree) ::
        NoOverrides(c.queues[n], ours, inTree)
    ensures var d := Ended(f, c, st, inTree, extraPE);
      forall pe | pe in c.pes && Judge(c.pes[pe], st, inTree, extraPE) == Ours ::
        pe !in d.pes && forall n | n in d.queues :: !Offers(d.queues[n], pe)
  {
    VerdictNames(f, c, Ours, st, inTree, extraPE);
    var ours := NamesOf(f.pes, Ours, st, inTree, extraPE);
    var restored := NamesOf(f.pes, Restored, st, inTree, extraPE);
    NotOffered(c, QueueToDelete(f.queues, st, ours, inTree), ours, restored, st, inTree);
  }

  lemma NothingPointsIn(f: Facts, c: Cluster, st: Record, inTree: string -> bool, extraPE: string, f2: Facts)
    requires Named(c) && Lists(f, c) && RecordOutside(st, inTree)
    requires var ours := NamesOf(f.pes, Ours, st, inTree, extraPE);
      forall n | n in c.queues && n != QueueToDelete(f.queues, st, ours, inTree) ::
        NoOverrides(c.queues[n], ours, inTree)
    requires forall n | n in c.pes :: Judge(c.pes[n], st, inTree, extraPE) != Unknown
    requires Lists(f2, Ended(f, c, st, inTree, extraPE))
    ensures ReferencesOf(f2, inTree) == []
  {
    var ours := NamesOf(f.pes, Ours, st, inTree, extraPE);
    var restored := NamesOf(f.pes, Restored, st, inTree, extraPE);
    QueuesOutside(c, QueueToDelete(f.queues, st, ours, inTree), ours, restored, st, inTree);
    EndedOutside(f, c, st, inTree, extraPE);
    NoReferences(f2, Ended(f, c, st, inTree, extraPE), inTree);
  }

  // ---------- Framed ----------

  /** The only things a row of the plan may touch. */
  ghost predicate Touches(c: Cluster, st: Record, inTree: string -> bool, ours: seq<string>, ch: Change) {
    match ch.kind
    case RemoveFromPEList =>
      && ch.target in c.queues && ch.prev in c.queues[ch.target].peList
      && (ch.prev in ours || PEListAdd(ch.target, ch.prev) in st.peListAdds)
    case SetStarter => ch.target in c.queues && StartsInTree(c.queues[ch.target], inTree)
    case DeleteQueue =>
      && ch.target == st.createdQueue == DEFAULT_QUEUE && ch.target in c.queues
      && CreatedByShim(c.queues[ch.target], ours, inTree)
    case DeletePE => ch.target in c.pes && inTree(c.pes[ch.target].startProcArgs) && ch.target in ours
    case SetPEAttr => ch.target in c.pes && inTree(c.pes[ch.target].startProcArgs)
    case DeleteComplex => ch.target == st.createdComplex == SHIM_COMPLEX
    case _ => ch.kind == Refused
  }

  ghost predicate AllTouch(c: Cluster, st: Record, inTree: string -> bool, ours: seq<string>, rows: seq<Change>) {
    forall ch | ch in rows :: Touches(c, st, inTree, ours, ch)
  }

  lemma RefusalKinds(q: Queue, ours: seq<string>, inTree: string -> bool)
    ensures forall ch | ch in FlatMap(q.peListOverrides, OverrideRefusal(q, ours)) :: ch.kind == Refused
    ensures forall ch | ch in FlatMap(q.starterOverrides, StarterRefusal(q, inTree)) :: ch.kind == Refused
  {
    FlatMapMembers(q.peListOverrides, OverrideRefusal(q, ours));
    FlatMapMembers(q.starterOverrides, StarterRefusal(q, inTree));
    forall ov, ch | ov in q.peListOverrides && ch in OverrideRefusal(q, ours)(ov)
      ensures ch.kind == Refused
    {
      FlatMapMembers(ours, OverrideHit(q, ov));
    }
  }

  lemma RefusalsTouch(c: Cluster, st: Record, inTree: string -> bool, ours: seq<string>, rows: seq<Change>)
    requires forall ch | ch in rows :: ch.kind == Refused
    ensures AllTouch(c, st, inTree, ours, rows)
  {
  }

  lemma {:induction false} RemovalsTouch(c: Cluster, st: Record, inTree: string -> bool, ours: seq<string>,
                                         restored: seq<string>, q: Queue)
    requires q.name in c.queues && c.queues[q.name] == q
    ensures AllTouch(c, st, inTree, ours, FlatMap(ours, OursRemoval(q)))
    ensures AllTouch(c, st, inTree, ours, FlatMap(restored, RestoredRemoval(q, st)))
  {
    FlatMapMembers(ours, OursRemoval(q));
    FlatMapMembers(restored, RestoredRemoval(q, st));
  }

  lemma UnwireTouches(c: Cluster, st: Record, inTree: string -> bool, ours: seq<string>, restored: seq<string>,
                      q: Queue)
    requires q.name in c.queues && c.queues[q.name] == q
    ensures AllTouch(c, st, inTree, ours, UnwireRows(q, ours, restored, st, inTree))
  {
    RefusalKinds(q, ours, inTree);
    RefusalsTouch(c, st, inTree, ours, FlatMap(q.peListOverrides, OverrideRefusal(q, ours)));
    RefusalsTouch(c, st, inTree, ours, FlatMap(q.starterOverrides, StarterRefusal(q, inTree)));
    RemovalsTouch(c, st, inTree, ours, restored, q);
    AllTouchSix(c, st, inTree, ours, [], FlatMap(ours, OursRemoval(q)), FlatMap(restored, RestoredRemoval(q, st)),
                FlatMap(q.peListOverrides, OverrideRefusal(q, ours)),
                FlatMap(q.starterOverrides, StarterRefusal(q, inTree)), StarterRow(q, st, inTree));
    assert [] + FlatMap(ours, OursRemoval(q)) == FlatMap(ours, OursRemoval(q));
  }

  lemma QueueRowsTouch(f: Facts, c: Cluster, st: Record, inTree: string -> bool, created: string, ours: seq<string>,
                       restored: seq<string>)
    requires Lists(f, c)
    ensures AllTouch(c, st, inTree, ours, FlatMap(f.queues, QueueRows(created, ours, restored, st, inTree)))
  {
    var rowsOf := QueueRows(created, ours, restored, st, inTree);
    FlatMapMembers(f.queues, rowsOf);
    forall q | q in f.queues
      ensures AllTouch(c, st, inTree, ours, rowsOf(q))
    {
      RowsTouch(c, st, inTree, created, ours, restored, q);
    }
  }

  lemma RowsTouch(c: Cluster, st: Record, inTree: string -> bool, created: string, ours: seq<string>,
                  restored: seq<string>, q: Queue)
    requires q.name in c.queues && c.queues[q.name] == q
    ensures AllTouch(c, st, inTree, ours, QueueRows(created, ours, restored, st, inTree)(q))
  {
    UnwireTouches(c, st, inTree, ours, restored, q);
  }

  lemma UnknownRowsTouch(f: Facts, c: Cluster, st: Record, inTree: string -> bool, extraPE: string, ours: seq<string>)
    ensures AllTouch(c, st, inTree, ours, FlatMap(f.pes, UnknownRow(st, inTree, extraPE)))
  {
    FlatMapMembers(f.pes, UnknownRow(st, inTree, extraPE));
  }

  lemma {:induction false} DeletesTouch(c: Cluster, st: Record, inTree: string -> bool, ours: seq<string>)
    requires forall pe | pe in ours :: pe in c.pes && inTree(c.pes[pe].startProcArgs)
    ensures AllTouch(c, st, inTree, ours, FlatMap(ours, DeletePERow()))
  {
    FlatMapMembers(ours, DeletePERow());
  }

  lemma RestoresTouch(c: Cluster, st: Record, inTree: string -> bool, ours: seq<string>, restored: seq<string>)
    requires forall pe | pe in restored :: pe in c.pes && inTree(c.pes[pe].startProcArgs)
    ensures AllTouch(c, st, inTree, ours, FlatMap(restored, RestoreRows(st)))
  {
    FlatMapMembers(restored, RestoreRows(st));
    forall pe, ch | pe in restored && ch in RestoreRows(st)(pe)
      ensures Touches(c, st, inTree, ours, ch)
    {
      RestoreKinds(pe, AttrsOf(st.replaced, PEKey(pe)));
    }
  }

  lemma {:induction false} RestoreKinds(pe: string, rs: seq<Replaced>)
    ensures forall ch | ch in FlatMap(rs, RestoreRow(pe)) ::
      ch.kind == Refused || (ch.kind == SetPEAttr && ch.target == pe)
  {
    FlatMapMembers(rs, RestoreRow(pe));
    forall r, ch | r in rs && ch in RestoreRow(pe)(r)
      ensures ch.kind == Refused || (ch.kind == SetPEAttr && ch.target == pe)
    {
    }
  }

  lemma AllTouchSix(c: Cluster, st: Record, inTree: string -> bool, ours: seq<string>, r0: seq<Change>,
                    r1: seq<Change>, r2: seq<Change>, r3: seq<Change>, r4: seq<Change>, r5: seq<Change>)
    requires AllTouch(c, st, inTree, ours, r0) && AllTouch(c, st, inTree, ours, r1) && AllTouch(c, st, inTree, ours, r2)
    requires AllTouch(c, st, inTree, ours, r3) && AllTouch(c, st, inTree, ours, r4) && AllTouch(c, st, inTree, ours, r5)
    ensures AllTouch(c, st, inTree, ours, r0 + r1 + r2 + r3 + r4 + r5)
  {
    forall ch | ch in r0 + r1 + r2 + r3 + r4 + r5
      ensures Touches(c, st, inTree, ours, ch)
    {
      assert ch in r0 || ch in r1 || ch in r2 || ch in r3 || ch in r4 || ch in r5;
    }
  }

  lemma FewRowsTouch(f: Facts, c: Cluster, st: Record, inTree: string -> bool, ours: seq<string>)
    requires Named(c) && Lists(f, c)
    ensures AllTouch(c, st, inTree, ours, DeleteComplexRows(f, st))
    ensures AllTouch(c, st, inTree, ours, DeleteQueueRows(QueueToDelete(f.queues, st, ours, inTree)))
  {
    DeletedQueueExists(f, c, st, ours, inTree);
  }

  lemma PlanTouches(f: Facts, c: Cluster, st: Record, inTree: string -> bool, extraPE: string)
    requires Named(c) && Lists(f, c)
    ensures AllTouch(c, st, inTree, NamesOf(f.pes, Ours, st, inTree, extraPE), UninstallPlan(f, st, inTree, extraPE))
  {
    var ours := NamesOf(f.pes, Ours, st, inTree, extraPE);
    var restored := NamesOf(f.pes, Restored, st, inTree, extraPE);
    var created := QueueToDelete(f.queues, st, ours, inTree);
    VerdictNames(f, c, Ours, st, inTree, extraPE);
    VerdictNames(f, c, Restored, st, inTree, extraPE);
    UnknownRowsTouch(f, c, st, inTree, extraPE, ours);
    QueueRowsTouch(f, c, st, inTree, created, ours, restored);
    DeletesTouch(c, st, inTree, ours);
    RestoresTouch(c, st, inTree, ours, restored);
    FewRowsTouch(f, c, st, inTree, ours);
    AllTouchSix(c, st, inTree, ours, FlatMap(f.pes, UnknownRow(st, inTree, extraPE)),
                FlatMap(f.queues, QueueRows(created, ours, restored, st, inTree)), DeleteQueueRows(created),
                FlatMap(ours, DeletePERow()), DeleteComplexRows(f, st), FlatMap(restored, RestoreRows(st)));
  }

  /** q neither starts in the tree, nor offers a PE that is deleted, nor has a PE the record
      says install added, nor is the queue the record names, with nothing on offer and no starter. */
  ghost predicate Bystander(q: Queue, st: Record, inTree: string -> bool, ours: seq<string>) {
    && !StartsInTree(q, inTree)
    && (forall pe | pe in q.peList :: pe !in ours && PEListAdd(q.name, pe) !in st.peListAdds)
    && !(q.name == st.createdQueue == DEFAULT_QUEUE
         && q.starterMethod == "" && q.peList == [] && q.peListOverrides == [])
  }

  ghost predicate Framed(c: Cluster, d: Cluster, st: Record, inTree: string -> bool, ours: seq<string>) {
    && (forall n | n in c.queues && Bystander(c.queues[n], st, inTree, ours) ::
          n in d.queues && d.queues[n] == c.queues[n])
    && (forall n | n in c.pes && !inTree(c.pes[n].startProcArgs) :: n in d.pes && d.pes[n] == c.pes[n])
    && (forall n | n in c.pes && n !in ours :: n in d.pes)
    && (forall n | n in c.complexes && !(n == st.createdComplex == SHIM_COMPLEX) ::
          n in d.complexes && d.complexes[n] == c.complexes[n])
    && d.queues.Keys <= c.queues.Keys && d.pes.Keys <= c.pes.Keys && d.complexes.Keys <= c.complexes.Keys
  }

  lemma StepKeepsFrame(c: Cluster, d: Cluster, st: Record, inTree: string -> bool, ours: seq<string>,
                       ch: Change, fail: bool)
    requires Named(c) && Framed(c, d, st, inTree, ours) && Touches(c, st, inTree, ours, ch)
    ensures Framed(c, Next(d, ch, fail), st, inTree, ours)
  {
    if Succeeds(d, ch, fail) && Mutating(ch.kind) {
      if ch.kind == RemoveFromPEList || ch.kind == SetStarter || ch.kind == DeleteQueue {
        QueueStepKeepsFrame(c, d, st, inTree, ours, ch);
      } else {
        ObjectStepKeepsFrame(c, d, st, inTree, ours, ch);
      }
    }
  }

  lemma BystanderIsNoTarget(c: Cluster, st: Record, inTree: string -> bool, ours: seq<string>, ch: Change, n: string)
    requires Named(c) && Touches(c, st, inTree, ours, ch)
    requires ch.kind == RemoveFromPEList || ch.kind == SetStarter || ch.kind == DeleteQueue
    requires n in c.queues && Bystander(c.queues[n], st, inTree, ours)
    ensures n != ch.target
  {
    HeadIn(c.queues[n].peList);
  }

  lemma QueueStepKeepsFrame(c: Cluster, d: Cluster, st: Record, inTree: string -> bool, ours: seq<string>, ch: Change)
    requires Named(c) && Framed(c, d, st, inTree, ours) && Touches(c, st, inTree, ours, ch)
    requires ch.kind == RemoveFromPEList || ch.kind == SetStarter || ch.kind == DeleteQueue
    requires Perform(d, ch).Some?
    ensures Framed(c, Perform(d, ch).value, st, inTree, ours)
  {
    var e := Perform(d, ch).value;
    assert e == d.(queues := e.queues) && e.queues.Keys <= d.queues.Keys;
    forall n | n in c.queues && Bystander(c.queues[n], st, inTree, ours)
      ensures n in e.queues && e.queues[n] == c.queues[n]
    {
      BystanderIsNoTarget(c, st, inTree, ours, ch, n);
    }
  }

  lemma ObjectStepKeepsFrame(c: Cluster, d: Cluster, st: Record, inTree: string -> bool, ours: seq<string>, ch: Change)
    requires Named(c) && Framed(c, d, st, inTree, ours) && Touches(c, st, inTree, ours, ch)
    requires ch.kind == DeletePE || ch.kind == SetPEAttr || ch.kind == DeleteComplex
    requires Perform(d, ch).Some?
    ensures Framed(c, Perform(d, ch).value, st, inTree, ours)
  {
  }

  lemma {:induction false} TouchesKeepFrame(c: Cluster, d: Cluster, st: Record, inTree: string -> bool,
                                            ours: seq<string>, rows: seq<Change>, fails: seq<bool>)
    requires Named(c) && Framed(c, d, st, inTree, ours) && AllTouch(c, st, inTree, ours, rows)
    ensures Framed(c, After(d, rows, fails), st, inTree, ours)
    decreases |rows|
  {
    if rows != [] {
      assert rows[0] in rows;
      StepKeepsFrame(c, d, st, inTree, ours, rows[0], Head(fails));
      TouchesKeepFrame(c, Next(d, rows[0], Head(fails)), st, inTree, ours, rows[1..], Tail(fails));
    }
  }

  /** Whatever fails, and refusals or not, uninstall touches no queue, PE or complex that is
      neither in the tree nor in the record, deletes no PE but its own, and adds nothing. */
  lemma UninstallIsFramed(f: Facts, c: Cluster, st: Record, inTree: string -> bool, extraPE: string, fails: seq<bool>)
    requires Named(c) && Lists(f, c)
    ensures Framed(c, After(c, UninstallPlan(f, st, inTree, extraPE), fails), st, inTree,
                   NamesOf(f.pes, Ours, st, inTree, extraPE))
  {
    PlanTouches(f, c, st, inTree, extraPE);
    TouchesKeepFrame(c, c, st, inTree, NamesOf(f.pes, Ours, st, inTree, extraPE),
                     UninstallPlan(f, st, inTree, extraPE), fails);
  }
}
