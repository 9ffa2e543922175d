/**
 An uninstall that was interrupted, run again: whatever calls of the first runs failed, the
 next one that goes through gives the site's cluster back -- always for a PE of install's
 own; for a site's PE taken over, exactly unless its start_proc_args were already written
 back while something else of it was not.
 */
module UninstallAgain {
  import opened Text
  import opened Sequences
  import opened Scheduler
  import opened Planner
  import opened InstallRecord
  import opened InstallGoal
  import opened Uninstaller
  import opened UninstallEffect
  import opened UninstallLaws
  import opened InstallUndone
  import opened UninstallRestores

  // ---------- What any part of an uninstall keeps ----------

  /** q is the site's queue q0, wired or unwired: what is left to undo is in the record. */
  ghost predicate PartQueue(q0: Queue, q: Queue, m: Mark, st: Record, hasPE: bool, site: bool, inTree: string -> bool) {
    && q == q0.(peList := q.peList, starterMethod := q.starterMethod)
    && (q.peList == q0.peList || (m.pe !in q0.peList && q.peList == q0.peList + [m.pe]
                                  && if site then PEListAdd(q0.name, m.pe) in st.peListAdds else hasPE))
    && (PEListAdd(q0.name, m.pe) in st.peListAdds ==> m.pe !in q0.peList)
    && UnwiredStarter(q, st, inTree) == q0.starterMethod
  }

  /** q is the queue install created, and offers nothing of the site's. */
  ghost predicate PartFresh(q: Queue, m: Mark, hasPE: bool, site: bool, inTree: string -> bool) {
    && q.name == m.own && q.peListOverrides == [] && q.starterOverrides == []
    && (q.peList == [] || (!site && hasPE && q.peList == [m.pe]))
    && (q.starterMethod == "" || inTree(q.starterMethod))
  }

  ghost predicate PartQueues(c0: Cluster, c: Cluster, m: Mark, st: Record, inTree: string -> bool) {
    var hasPE, site := m.pe in c.pes, m.pe in c0.pes;
    && c0.queues.Keys <= c.queues.Keys <= c0.queues.Keys + {m.own}
    && (forall n | n in c0.queues :: PartQueue(c0.queues[n], c.queues[n], m, st, hasPE, site, inTree))
    && (m.own in c.queues && m.own !in c0.queues ==>
          PartFresh(c.queues[m.own], m, hasPE, site, inTree) && st.createdQueue == m.own)
    && (st.createdQueue == "" || (st.createdQueue == m.own && m.own !in c0.queues))
    && (forall x | x in st.peListAdds :: x.pe == m.pe)
  }

  /** p is the site's PE p0, each value its own again or still install's and recorded. */
  ghost predicate PartPE(p0: PE, p: PE, m: Mark, st: Record) {
    && p == p0.(slots := p.slots, startProcArgs := p.startProcArgs, controlSlaves := p.controlSlaves)
    && (forall r | r in st.replaced && r.target == PEKey(m.pe) :: SiteValue(p0, r))
    && (p.slots == p0.slots || Recorded(st, PEKey(m.pe), Slots).Some?)
    && (p.startProcArgs == p0.startProcArgs || p.startProcArgs == m.want.startProcArgs)
    && (p.controlSlaves == p0.controlSlaves || Recorded(st, PEKey(m.pe), ControlSlaves).Some?)
  }

  ghost predicate PartPEs(c0: Cluster, c: Cluster, m: Mark, st: Record) {
    && c0.pes.Keys <= c.pes.Keys <= c0.pes.Keys + {m.pe}
    && (forall n | n in c0.pes && n != m.pe :: c.pes[n] == c0.pes[n])
    && (if m.pe in c0.pes then PartPE(c0.pes[m.pe], c.pes[m.pe], m, st) && TookOver(st, m.pe)
        else
          && (forall r | r in st.replaced :: r.target != PEKey(m.pe))
          && (m.pe in c.pes ==> c.pes[m.pe] == m.want && st.createdPE == m.pe))
  }

  /** c is what part of an uninstall may have left of what installs made of the site's c0. */
  ghost predicate Part(c0: Cluster, c: Cluster, m: Mark, st: Record, inTree: string -> bool) {
    && Named(c) && PartQueues(c0, c, m, st, inTree) && PartPEs(c0, c, m, st) && TrackedComplexes(c0, c, m, st)
  }

  /** A clean site, and a cluster an uninstall with this record is under way on. */
  ghost predicate Underway(c0: Cluster, c: Cluster, m: Mark, st: Record, inTree: string -> bool) {
    && Clean(c0, m, inTree) && MarkIsInTree(m, inTree) && m.own == DEFAULT_QUEUE && m.cx == SHIM_COMPLEX
    && (m.pe in c0.pes ==> !RunsAsOtherUser(c0.pes[m.pe].startProcArgs))
    && Part(c0, c, m, st, inTree)
  }

  lemma TrackedQueueIsPart(q0: Queue, q: Queue, m: Mark, st: Record, hasPE: bool, site: bool, inTree: string -> bool)
    requires TrackedQueue(q0, q, m, st, hasPE, site) && SiteQueue(q0, inTree) && inTree(m.starter) && m.starter != ""
    requires !site ==> !Offers(q0, m.pe)
    ensures PartQueue(q0, q, m, st, hasPE, site, inTree)
  {
    StarterIsRestored(q0, q, m, st, hasPE, site, inTree);
  }

  /** The start: a tracked cluster with an undoable record, its PE install's own or taken over. */
  lemma TrackedIsUnderway(c0: Cluster, c: Cluster, m: Mark, st: Record, inTree: string -> bool)
    requires Situation(c0, c, m, st, inTree) && m.own == DEFAULT_QUEUE && m.cx == SHIM_COMPLEX
    requires m.pe in c0.pes ==> TookOver(st, m.pe) && Undoable(st, m.pe)
    ensures Underway(c0, c, m, st, inTree)
  {
    forall n | n in c0.queues
      ensures PartQueue(c0.queues[n], c.queues[n], m, st, m.pe in c.pes, m.pe in c0.pes, inTree)
    {
      assert TrackedQueue(c0.queues[n], c.queues[n], m, st, m.pe in c.pes, m.pe in c0.pes);
      TrackedQueueIsPart(c0.queues[n], c.queues[n], m, st, m.pe in c.pes, m.pe in c0.pes, inTree);
    }
    FreshIsPart(c0, c, m, st, inTree);
    PEsArePart(c0, c, m, st, inTree);
  }

  lemma FreshIsPart(c0: Cluster, c: Cluster, m: Mark, st: Record, inTree: string -> bool)
    requires Situation(c0, c, m, st, inTree) && m.own == DEFAULT_QUEUE
    requires m.pe in c0.pes ==> TookOver(st, m.pe) && Undoable(st, m.pe)
    ensures m.own in c.queues && m.own !in c0.queues ==>
      PartFresh(c.queues[m.own], m, m.pe in c.pes, m.pe in c0.pes, inTree)
  {
    if m.own in c.queues && m.own !in c0.queues && m.pe in c0.pes {
      TakenIs(c0, c, m, st, inTree);
      assert FreshQueue(c.queues[m.own], m, st, true, true);
    }
  }

  lemma PEsArePart(c0: Cluster, c: Cluster, m: Mark, st: Record, inTree: string -> bool)
    requires Situation(c0, c, m, st, inTree)
    requires m.pe in c0.pes ==> TookOver(st, m.pe) && Undoable(st, m.pe)
    ensures PartPEs(c0, c, m, st)
    ensures m.pe in c0.pes ==> !RunsAsOtherUser(c0.pes[m.pe].startProcArgs)
  {
    if m.pe in c0.pes {
      TakenIs(c0, c, m, st, inTree);
    }
  }

  // ---------- One row, failing or not ----------

  /** What a row of the plan may do, in terms of the site and the record alone. */
  ghost predicate UndoRow(c0: Cluster, m: Mark, st: Record, ch: Change) {
    match ch.kind
    case RemoveFromPEList =>
      && ch.prev == m.pe
      && (ch.target in c0.queues ==> m.pe !in c0.queues[ch.target].peList)
    case SetStarter =>
      ch.target in c0.queues && FromNone(OrNone(ch.next)) == c0.queues[ch.target].starterMethod
    case DeleteQueue => ch.target == m.own && m.own !in c0.queues
    case DeletePE => ch.target == m.pe && m.pe !in c0.pes
    case SetPEAttr =>
      ch.target == m.pe && m.pe in c0.pes && SiteValue(c0.pes[m.pe], Replaced(PEKey(m.pe), ch.attr, ch.next))
    case DeleteComplex => ch.target == m.cx && m.cx !in c0.complexes
    case _ => ch.kind == Refused
  }

  lemma RemovalKeepsPart(q0: Queue, q: Queue, m: Mark, st: Record, hasPE: bool, site: bool, inTree: string -> bool)
    requires PartQueue(q0, q, m, st, hasPE, site, inTree) && m.pe !in q0.peList
    ensures Without(q.peList, m.pe) == q0.peList
    ensures PartQueue(q0, q.(peList := Without(q.peList, m.pe)), m, st, hasPE, site, inTree)
  {
    WithoutMembers(q0.peList, m.pe);
    WithoutLast(q0.peList, m.pe);
  }

  lemma StarterKeepsPart(q0: Queue, q: Queue, m: Mark, st: Record, hasPE: bool, site: bool, inTree: string -> bool)
    requires PartQueue(q0, q, m, st, hasPE, site, inTree) && SiteQueue(q0, inTree)
    ensures PartQueue(q0, q.(starterMethod := q0.starterMethod), m, st, hasPE, site, inTree)
  {
  }

  lemma UnlistTo(d: Cluster, ch: Change, n: string)
    requires ch.kind == RemoveFromPEList && Perform(d, ch).Some? && n in d.queues
    ensures var e := Perform(d, ch).value;
      && e.pes == d.pes && e.queues.Keys == d.queues.Keys
      && e.queues[n] == if n == ch.target then d.queues[n].(peList := Without(d.queues[n].peList, ch.prev))
        else d.queues[n]
  {
  }

  lemma UnlistStep(c0: Cluster, d: Cluster, m: Mark, st: Record, inTree: string -> bool, ch: Change)
    requires PartQueues(c0, d, m, st, inTree) && UndoRow(c0, m, st, ch) && ch.kind == RemoveFromPEList
    requires Perform(d, ch).Some?
    ensures PartQueues(c0, Perform(d, ch).value, m, st, inTree)
  {
    var e := Perform(d, ch).value;
    UnlistTo(d, ch, ch.target);
    forall n | n in c0.queues
      ensures PartQueue(c0.queues[n], e.queues[n], m, st, m.pe in e.pes, m.pe in c0.pes, inTree)
    {
      assert PartQueue(c0.queues[n], d.queues[n], m, st, m.pe in d.pes, m.pe in c0.pes, inTree);
      UnlistTo(d, ch, n);
      if n == ch.target {
        RemovalKeepsPart(c0.queues[n], d.queues[n], m, st, m.pe in d.pes, m.pe in c0.pes, inTree);
      }
    }
    if m.own in d.queues && m.own !in c0.queues {
      UnlistTo(d, ch, m.own);
      FreshUnlisted(m.pe);
    }
  }

  lemma FreshUnlisted(pe: string)
    ensures Without([], pe) == [] && Without([pe], pe) == []
  {
    assert [pe][1..] == [];
  }

  lemma UnwireStep(c0: Cluster, d: Cluster, m: Mark, st: Record, inTree: string -> bool, ch: Change)
    requires PartQueues(c0, d, m, st, inTree) && UndoRow(c0, m, st, ch) && ch.kind == SetStarter
    requires Perform(d, ch).Some? && SiteQueue(c0.queues[ch.target], inTree)
    ensures PartQueues(c0, Perform(d, ch).value, m, st, inTree)
  {
    var e, starter := Perform(d, ch).value, c0.queues[ch.target].starterMethod;
    StarterTo(d, ch, starter, ch.target);
    forall n | n in c0.queues
      ensures PartQueue(c0.queues[n], e.queues[n], m, st, m.pe in e.pes, m.pe in c0.pes, inTree)
    {
      assert PartQueue(c0.queues[n], d.queues[n], m, st, m.pe in d.pes, m.pe in c0.pes, inTree);
      StarterTo(d, ch, starter, n);
      if n == ch.target {
        StarterKeepsPart(c0.queues[n], d.queues[n], m, st, m.pe in d.pes, m.pe in c0.pes, inTree);
      }
    }
    if m.own in d.queues && m.own !in c0.queues {
      StarterTo(d, ch, starter, m.own);
    }
  }

  lemma DeleteQueueStep(c0: Cluster, d: Cluster, m: Mark, st: Record, inTree: string -> bool, ch: Change)
    requires Underway(c0, d, m, st, inTree) && UndoRow(c0, m, st, ch) && ch.kind == DeleteQueue
    requires Perform(d, ch).Some?
    ensures PartQueues(c0, Perform(d, ch).value, m, st, inTree)
  {
    var e := Perform(d, ch).value;
    forall n | n in c0.queues
      ensures n in e.queues && PartQueue(c0.queues[n], e.queues[n], m, st, m.pe in e.pes, m.pe in c0.pes, inTree)
    {
      assert PartQueue(c0.queues[n], d.queues[n], m, st, m.pe in d.pes, m.pe in c0.pes, inTree);
    }
  }

  lemma DeletePEStep(c0: Cluster, d: Cluster, m: Mark, st: Record, inTree: string -> bool, ch: Change)
    requires Underway(c0, d, m, st, inTree) && UndoRow(c0, m, st, ch) && ch.kind == DeletePE
    requires Perform(d, ch).Some?
    ensures var e := Perform(d, ch).value; PartQueues(c0, e, m, st, inTree) && PartPEs(c0, e, m, st)
  {
    var e := Perform(d, ch).value;
    forall n | n in c0.queues
      ensures PartQueue(c0.queues[n], e.queues[n], m, st, m.pe in e.pes, m.pe in c0.pes, inTree)
    {
      assert PartQueue(c0.queues[n], d.queues[n], m, st, m.pe in d.pes, m.pe in c0.pes, inTree);
      assert !Offers(d.queues[n], m.pe);
    }
    if m.own in d.queues {
      assert !Offers(d.queues[m.own], m.pe);
    }
  }

  lemma WriteStep(c0: Cluster, d: Cluster, m: Mark, st: Record, inTree: string -> bool, ch: Change)
    requires Underway(c0, d, m, st, inTree) && UndoRow(c0, m, st, ch) && ch.kind == SetPEAttr
    requires Perform(d, ch).Some?
    ensures var e := Perform(d, ch).value; PartPEs(c0, e, m, st) && e == d.(pes := e.pes) && e.pes.Keys == d.pes.Keys
  {
    WriteSite(c0.pes[m.pe], d.pes[m.pe], Replaced(PEKey(m.pe), ch.attr, ch.next));
  }

  lemma QueueStepStays(c0: Cluster, d: Cluster, m: Mark, st: Record, inTree: string -> bool, ch: Change)
    requires Underway(c0, d, m, st, inTree) && UndoRow(c0, m, st, ch) && Perform(d, ch).Some?
    requires ch.kind == RemoveFromPEList || ch.kind == SetStarter || ch.kind == DeleteQueue
    ensures Underway(c0, Perform(d, ch).value, m, st, inTree)
  {
    if ch.kind == RemoveFromPEList {
      UnlistStep(c0, d, m, st, inTree, ch);
    } else if ch.kind == SetStarter {
      UnwireStep(c0, d, m, st, inTree, ch);
    } else {
      DeleteQueueStep(c0, d, m, st, inTree, ch);
    }
    StepKeepsNamed(d, ch);
  }

  lemma PEStepStays(c0: Cluster, d: Cluster, m: Mark, st: Record, inTree: string -> bool, ch: Change)
    requires Underway(c0, d, m, st, inTree) && UndoRow(c0, m, st, ch) && Perform(d, ch).Some?
    requires ch.kind == DeletePE || ch.kind == SetPEAttr
    ensures Underway(c0, Perform(d, ch).value, m, st, inTree)
  {
    if ch.kind == DeletePE {
      DeletePEStep(c0, d, m, st, inTree, ch);
    } else {
      WriteStep(c0, d, m, st, inTree, ch);
      SameQueuesPart(c0, d, Perform(d, ch).value, m, st, inTree);
    }
    StepKeepsNamed(d, ch);
  }

  lemma ComplexStepStays(c0: Cluster, d: Cluster, m: Mark, st: Record, inTree: string -> bool, ch: Change)
    requires Underway(c0, d, m, st, inTree) && UndoRow(c0, m, st, ch) && Perform(d, ch).Some?
    requires ch.kind == DeleteComplex
    ensures Underway(c0, Perform(d, ch).value, m, st, inTree)
  {
    SameQueuesPart(c0, d, Perform(d, ch).value, m, st, inTree);
    StepKeepsNamed(d, ch);
  }

  lemma StepStaysUnderway(c0: Cluster, d: Cluster, m: Mark, st: Record, inTree: string -> bool, ch: Change, fail: bool)
    requires Underway(c0, d, m, st, inTree) && UndoRow(c0, m, st, ch)
    ensures Underway(c0, Next(d, ch, fail), m, st, inTree)
  {
    if Succeeds(d, ch, fail) && Mutating(ch.kind) {
      match ch.kind {
        case RemoveFromPEList => QueueStepStays(c0, d, m, st, inTree, ch);
        case SetStarter => QueueStepStays(c0, d, m, st, inTree, ch);
        case DeleteQueue => QueueStepStays(c0, d, m, st, inTree, ch);
        case DeletePE => PEStepStays(c0, d, m, st, inTree, ch);
        case SetPEAttr => PEStepStays(c0, d, m, st, inTree, ch);
        case DeleteComplex => ComplexStepStays(c0, d, m, st, inTree, ch);
      }
    }
  }

  lemma SameQueuesPart(c0: Cluster, d: Cluster, e: Cluster, m: Mark, st: Record, inTree: string -> bool)
    requires PartQueues(c0, d, m, st, inTree) && e.queues == d.queues && e.pes.Keys == d.pes.Keys
    ensures PartQueues(c0, e, m, st, inTree)
  {
    forall n | n in c0.queues
      ensures PartQueue(c0.queues[n], e.queues[n], m, st, m.pe in e.pes, m.pe in c0.pes, inTree)
    {
      assert PartQueue(c0.queues[n], d.queues[n], m, st, m.pe in d.pes, m.pe in c0.pes, inTree);
    }
  }

  lemma StepKeepsNamed(d: Cluster, ch: Change)
    requires Named(d) && Perform(d, ch).Some?
    requires ch.kind == RemoveFromPEList || ch.kind == SetStarter || ch.kind == DeleteQueue || ch.kind == DeletePE
             || ch.kind == SetPEAttr || ch.kind == DeleteComplex
    ensures var e := Perform(d, ch).value;
      && Named(e)
      && (ch.kind != DeleteComplex ==> e.complexes == d.complexes)
      && (ch.kind != DeletePE && ch.kind != SetPEAttr ==> e.pes == d.pes)
  {
  }

  ghost predicate UndoRows(c0: Cluster, m: Mark, st: Record, rows: seq<Change>) {
    forall ch | ch in rows :: UndoRow(c0, m, st, ch)
  }

  lemma {:induction false} RunStaysUnderway(c0: Cluster, d: Cluster, m: Mark, st: Record, inTree: string -> bool,
                                            rows: seq<Change>, fails: seq<bool>)
    requires Underway(c0, d, m, st, inTree) && UndoRows(c0, m, st, rows)
    ensures Underway(c0, After(d, rows, fails), m, st, inTree)
    decreases |rows|
  {
    if rows != [] {
      assert rows[0] in rows;
      StepStaysUnderway(c0, d, m, st, inTree, rows[0], Head(fails));
      RunStaysUnderway(c0, Next(d, rows[0], Head(fails)), m, st, inTree, rows[1..], Tail(fails));
    }
  }

  // ---------- The plan of an uninstall under way ----------

  lemma VerdictUnderway(c0: Cluster, c: Cluster, m: Mark, st: Record, inTree: string -> bool, n: string)
    requires Underway(c0, c, m, st, inTree) && n in c.pes
    ensures Judge(c.pes[n], st, inTree, "")
         == if n != m.pe then NotOurs
            else if m.pe !in c0.pes then Ours
            else if inTree(c.pes[m.pe].startProcArgs) then Restored else NotOurs
  {
    if n == m.pe && m.pe !in c0.pes {
      OldOfIsRecorded(st.replaced, PEKey(m.pe), StartProcArgs);
    }
  }

  /** The PEs an uninstall under way still deletes, and those it still restores. */
  function OursOf(c0: Cluster, c: Cluster, m: Mark): seq<string> {
    if m.pe !in c0.pes && m.pe in c.pes then [m.pe] else []
  }

  function RestoredOf(c0: Cluster, c: Cluster, m: Mark, inTree: string -> bool): seq<string> {
    if m.pe in c0.pes && m.pe in c.pes && inTree(c.pes[m.pe].startProcArgs) then [m.pe] else []
  }

  ghost predicate VerdictsAre(c0: Cluster, c: Cluster, m: Mark, st: Record, inTree: string -> bool) {
    forall n | n in c.pes :: Judge(c.pes[n], st, inTree, "")
      == if n != m.pe then NotOurs
         else if m.pe !in c0.pes then Ours
         else if inTree(c.pes[m.pe].startProcArgs) then Restored else NotOurs
  }

  lemma VerdictsUnderway(c0: Cluster, c: Cluster, m: Mark, st: Record, inTree: string -> bool)
    requires Underway(c0, c, m, st, inTree)
    ensures VerdictsAre(c0, c, m, st, inTree)
  {
    forall n | n in c.pes
      ensures Judge(c.pes[n], st, inTree, "")
           == if n != m.pe then NotOurs
              else if m.pe !in c0.pes then Ours
              else if inTree(c.pes[m.pe].startProcArgs) then Restored else NotOurs
    {
      VerdictUnderway(c0, c, m, st, inTree, n);
    }
  }

  lemma OursAre(f: Facts, c0: Cluster, c: Cluster, m: Mark, st: Record, inTree: string -> bool)
    requires Named(c) && Lists(f, c) && VerdictsAre(c0, c, m, st, inTree)
    ensures NamesOf(f.pes, Ours, st, inTree, "") == OursOf(c0, c, m)
  {
    VerdictNames(f, c, Ours, st, inTree, "");
    var ours := NamesOf(f.pes, Ours, st, inTree, "");
    if OursOf(c0, c, m) == [] { Nobody(ours); } else { Only(ours, m.pe); }
  }

  lemma RestoredAre(f: Facts, c0: Cluster, c: Cluster, m: Mark, st: Record, inTree: string -> bool)
    requires Named(c) && Lists(f, c) && VerdictsAre(c0, c, m, st, inTree)
    ensures NamesOf(f.pes, Restored, st, inTree, "") == RestoredOf(c0, c, m, inTree)
  {
    VerdictNames(f, c, Restored, st, inTree, "");
    var restored := NamesOf(f.pes, Restored, st, inTree, "");
    if RestoredOf(c0, c, m, inTree) == [] { Nobody(restored); } else { Only(restored, m.pe); }
  }

  lemma NoneUnknown(f: Facts, c0: Cluster, c: Cluster, m: Mark, st: Record, inTree: string -> bool)
    requires Lists(f, c) && VerdictsAre(c0, c, m, st, inTree)
    ensures NoRefusal(FlatMap(f.pes, UnknownRow(st, inTree, "")))
  {
    FlatMapMembers(f.pes, UnknownRow(st, inTree, ""));
    forall p | p in f.pes
      ensures UnknownRow(st, inTree, "")(p) == []
    {
      assert p.name in c.pes && c.pes[p.name] == p;
    }
  }

  lemma NamesUnderway(f: Facts, c0: Cluster, c: Cluster, m: Mark, st: Record, inTree: string -> bool)
    requires Underway(c0, c, m, st, inTree) && Lists(f, c)
    ensures NamesOf(f.pes, Ours, st, inTree, "") == OursOf(c0, c, m)
    ensures NamesOf(f.pes, Restored, st, inTree, "") == RestoredOf(c0, c, m, inTree)
    ensures NoRefusal(FlatMap(f.pes, UnknownRow(st, inTree, "")))
  {
    VerdictsUnderway(c0, c, m, st, inTree);
    OursAre(f, c0, c, m, st, inTree);
    RestoredAre(f, c0, c, m, st, inTree);
    NoneUnknown(f, c0, c, m, st, inTree);
  }

  /** The queue to delete, while it is there: install's own. */
  function CreatedOf(c0: Cluster, c: Cluster, m: Mark): string {
    if m.own in c.queues && m.own !in c0.queues then m.own else ""
  }

  lemma CreatedUnderway(f: Facts, c0: Cluster, c: Cluster, m: Mark, st: Record, inTree: string -> bool)
    requires Underway(c0, c, m, st, inTree) && Lists(f, c)
    ensures QueueToDelete(f.queues, st, OursOf(c0, c, m), inTree) == CreatedOf(c0, c, m)
  {
    DeletedQueueExists(f, c, st, OursOf(c0, c, m), inTree);
    if m.own in c.queues && m.own !in c0.queues {
      assert CreatedByShim(c.queues[m.own], OursOf(c0, c, m), inTree);
    }
  }

  lemma OverridesUnderway(c0: Cluster, c: Cluster, m: Mark, st: Record, inTree: string -> bool)
    requires Underway(c0, c, m, st, inTree)
    ensures forall n | n in c.queues :: NoOverrides(c.queues[n], OursOf(c0, c, m), inTree)
  {
    forall n | n in c.queues
      ensures NoOverrides(c.queues[n], OursOf(c0, c, m), inTree)
    {
      if n in c0.queues {
        var q0 := c0.queues[n];
        assert PartQueue(q0, c.queues[n], m, st, m.pe in c.pes, m.pe in c0.pes, inTree);
        assert SiteQueue(q0, inTree);
        forall ov | ov in q0.peListOverrides && m.pe !in c0.pes
          ensures m.pe !in OverrideWords(ov)
        {
          var i :| 0 <= i < |q0.peListOverrides| && q0.peListOverrides[i] == ov;
          assert !Offers(q0, m.pe);
        }
      }
    }
  }

  /** No refusal stands in its way. */
  lemma NotRefused(f: Facts, c0: Cluster, c: Cluster, m: Mark, st: Record, inTree: string -> bool)
    requires Underway(c0, c, m, st, inTree) && Lists(f, c)
    ensures NoRefusal(UninstallPlan(f, st, inTree, ""))
  {
    NamesUnderway(f, c0, c, m, st, inTree);
    OverridesUnderway(c0, c, m, st, inTree);
    RestoresNotRefused(c0, m, st, RestoredOf(c0, c, m, inTree));
    PlanRefusesIff(f, c, st, inTree, OursOf(c0, c, m), RestoredOf(c0, c, m, inTree));
  }

  lemma RestoresNotRefused(c0: Cluster, m: Mark, st: Record, restored: seq<string>)
    requires restored == [] || (restored == [m.pe] && m.pe in c0.pes)
    requires m.pe in c0.pes ==>
      && (forall r | r in st.replaced && r.target == PEKey(m.pe) :: SiteValue(c0.pes[m.pe], r))
      && TookOver(st, m.pe) && !RunsAsOtherUser(c0.pes[m.pe].startProcArgs)
    ensures NoRefusal(FlatMap(restored, RestoreRows(st)))
  {
    if restored != [] {
      SiteNotRefused(c0.pes[m.pe], m, st);
    }
  }

  lemma SiteNotRefused(p0: PE, m: Mark, st: Record)
    requires (forall r | r in st.replaced && r.target == PEKey(m.pe) :: SiteValue(p0, r)) && TookOver(st, m.pe)
    requires !RunsAsOtherUser(p0.startProcArgs)
    ensures NoRefusal(FlatMap([m.pe], RestoreRows(st)))
  {
    AttrsOfAre(st.replaced, PEKey(m.pe));
    RestoreRefuses(p0, m, st);
  }

  lemma {:induction false} OursRemovalsUndo(c0: Cluster, m: Mark, st: Record, q: Queue, ours: seq<string>)
    requires forall pe | pe in ours :: pe == m.pe
    requires ours != [] && q.name in c0.queues ==> m.pe !in c0.queues[q.name].peList
    ensures UndoRows(c0, m, st, FlatMap(ours, OursRemoval(q)))
  {
    FlatMapMembers(ours, OursRemoval(q));
  }

  lemma {:induction false} RestoredRemovalsUndo(c0: Cluster, m: Mark, st: Record, q: Queue, restored: seq<string>)
    requires forall pe | pe in restored :: pe == m.pe
    requires PEListAdd(q.name, m.pe) in st.peListAdds && q.name in c0.queues ==> m.pe !in c0.queues[q.name].peList
    ensures UndoRows(c0, m, st, FlatMap(restored, RestoredRemoval(q, st)))
  {
    FlatMapMembers(restored, RestoredRemoval(q, st));
  }

  lemma RemovalsUndo(c0: Cluster, c: Cluster, m: Mark, st: Record, inTree: string -> bool, q: Queue)
    requires Underway(c0, c, m, st, inTree) && q.name in c.queues && c.queues[q.name] == q
    ensures UndoRows(c0, m, st, FlatMap(OursOf(c0, c, m), OursRemoval(q)))
    ensures UndoRows(c0, m, st, FlatMap(RestoredOf(c0, c, m, inTree), RestoredRemoval(q, st)))
  {
    if q.name in c0.queues {
      assert PartQueue(c0.queues[q.name], q, m, st, m.pe in c.pes, m.pe in c0.pes, inTree);
      assert m.pe !in c0.pes ==> !Offers(c0.queues[q.name], m.pe);
    }
    OursRemovalsUndo(c0, m, st, q, OursOf(c0, c, m));
    RestoredRemovalsUndo(c0, m, st, q, RestoredOf(c0, c, m, inTree));
  }

  lemma StarterUndoes(c0: Cluster, c: Cluster, m: Mark, st: Record, inTree: string -> bool, q: Queue)
    requires Underway(c0, c, m, st, inTree) && q.name in c0.queues && c.queues[q.name] == q
    ensures UndoRows(c0, m, st, StarterRow(q, st, inTree))
  {
    assert PartQueue(c0.queues[q.name], q, m, st, m.pe in c.pes, m.pe in c0.pes, inTree);
  }

  lemma QueueUndoes(c0: Cluster, c: Cluster, m: Mark, st: Record, inTree: string -> bool, q: Queue)
    requires Underway(c0, c, m, st, inTree) && q.name in c.queues && c.queues[q.name] == q
    ensures UndoRows(c0, m, st, RowsUnlessDeleted(q, CreatedOf(c0, c, m), OursOf(c0, c, m),
                                                  RestoredOf(c0, c, m, inTree), st, inTree))
  {
    if q.name != CreatedOf(c0, c, m) {
      RemovalsUndo(c0, c, m, st, inTree, q);
      StarterUndoes(c0, c, m, st, inTree, q);
      RefusalKinds(q, OursOf(c0, c, m), inTree);
      FiveUndo(c0, m, st, FlatMap(OursOf(c0, c, m), OursRemoval(q)),
               FlatMap(RestoredOf(c0, c, m, inTree), RestoredRemoval(q, st)),
               FlatMap(q.peListOverrides, OverrideRefusal(q, OursOf(c0, c, m))),
               FlatMap(q.starterOverrides, StarterRefusal(q, inTree)), StarterRow(q, st, inTree));
    }
  }

  lemma FiveUndo(c0: Cluster, m: Mark, st: Record, r1: seq<Change>, r2: seq<Change>, r3: seq<Change>,
                 r4: seq<Change>, r5: seq<Change>)
    requires UndoRows(c0, m, st, r1) && UndoRows(c0, m, st, r2) && UndoRows(c0, m, st, r5)
    requires forall ch | ch in r3 || ch in r4 :: ch.kind == Refused
    ensures UndoRows(c0, m, st, r1 + r2 + r3 + r4 + r5)
  {
    FiveParts(r1, r2, r3, r4, r5);
  }

  lemma QueueRowsUndo(f: Facts, c0: Cluster, c: Cluster, m: Mark, st: Record, inTree: string -> bool)
    requires Underway(c0, c, m, st, inTree) && Lists(f, c)
    ensures UndoRows(c0, m, st, FlatMap(f.queues, QueueRows(CreatedOf(c0, c, m), OursOf(c0, c, m),
                                                            RestoredOf(c0, c, m, inTree), st, inTree)))
  {
    var rowsOf := QueueRows(CreatedOf(c0, c, m), OursOf(c0, c, m), RestoredOf(c0, c, m, inTree), st, inTree);
    FlatMapMembers(f.queues, rowsOf);
    forall q, ch | q in f.queues && ch in rowsOf(q)
      ensures UndoRow(c0, m, st, ch)
    {
      QueueUndoes(c0, c, m, st, inTree, q);
    }
  }

  lemma DeletionsUndo(f: Facts, c0: Cluster, c: Cluster, m: Mark, st: Record)
    requires TrackedComplexes(c0, c, m, st) && m.cx != ""
    ensures UndoRows(c0, m, st, DeleteQueueRows(CreatedOf(c0, c, m)))
    ensures UndoRows(c0, m, st, FlatMap(OursOf(c0, c, m), DeletePERow()))
    ensures m.cx == SHIM_COMPLEX ==> UndoRows(c0, m, st, DeleteComplexRows(f, st))
  {
    if OursOf(c0, c, m) != [] {
      FlatMapOne(m.pe, DeletePERow());
    }
  }

  lemma RestoresUndo(c0: Cluster, m: Mark, st: Record, restored: seq<string>)
    requires restored == [] || (restored == [m.pe] && m.pe in c0.pes)
    requires m.pe in c0.pes ==> forall r | r in st.replaced && r.target == PEKey(m.pe) :: SiteValue(c0.pes[m.pe], r)
    ensures UndoRows(c0, m, st, FlatMap(restored, RestoreRows(st)))
  {
    if restored != [] {
      SiteRestoresUndo(c0, m, st);
    }
  }

  lemma SiteRestoresUndo(c0: Cluster, m: Mark, st: Record)
    requires m.pe in c0.pes && forall r | r in st.replaced && r.target == PEKey(m.pe) :: SiteValue(c0.pes[m.pe], r)
    ensures UndoRows(c0, m, st, FlatMap([m.pe], RestoreRows(st)))
  {
    assert [m.pe][1..] == [];
    assert FlatMap([m.pe], RestoreRows(st)) == FlatMap(AttrsOf(st.replaced, PEKey(m.pe)), RestoreRow(m.pe)) + [];
    forall ch | ch in FlatMap(AttrsOf(st.replaced, PEKey(m.pe)), RestoreRow(m.pe))
      ensures UndoRow(c0, m, st, ch)
    {
      RestoredRowUndoes(c0, m, st, ch);
    }
  }

  lemma RestoredRowUndoes(c0: Cluster, m: Mark, st: Record, ch: Change)
    requires m.pe in c0.pes && forall r | r in st.replaced && r.target == PEKey(m.pe) :: SiteValue(c0.pes[m.pe], r)
    requires ch in FlatMap(AttrsOf(st.replaced, PEKey(m.pe)), RestoreRow(m.pe))
    ensures UndoRow(c0, m, st, ch)
  {
    var rs := AttrsOf(st.replaced, PEKey(m.pe));
    AttrsOfAre(st.replaced, PEKey(m.pe));
    FlatMapMembers(rs, RestoreRow(m.pe));
    var r :| r in rs && ch in RestoreRow(m.pe)(r);
    assert SiteValue(c0.pes[m.pe], r);
  }

  lemma SixUndo(c0: Cluster, m: Mark, st: Record, r0: seq<Change>, r1: seq<Change>, r2: seq<Change>, r3: seq<Change>,
                r4: seq<Change>, r5: seq<Change>)
    requires NoUndo(r0) && UndoRows(c0, m, st, r1) && UndoRows(c0, m, st, r2)
    requires UndoRows(c0, m, st, r3) && UndoRows(c0, m, st, r4) && UndoRows(c0, m, st, r5)
    ensures UndoRows(c0, m, st, r0 + r1 + r2 + r3 + r4 + r5)
  {
    forall ch | ch in r0 + r1 + r2 + r3 + r4 + r5
      ensures UndoRow(c0, m, st, ch)
    {
      assert ch in r0 || ch in r1 || ch in r2 || ch in r3 || ch in r4 || ch in r5;
    }
  }

  predicate NoUndo(rows: seq<Change>) {
    forall i | 0 <= i < |rows| :: rows[i].kind == Refused
  }

  lemma UnknownRowsAre(f: Facts, st: Record, inTree: string -> bool)
    ensures NoUndo(FlatMap(f.pes, UnknownRow(st, inTree, "")))
  {
    var rows := FlatMap(f.pes, UnknownRow(st, inTree, ""));
    FlatMapMembers(f.pes, UnknownRow(st, inTree, ""));
    forall i | 0 <= i < |rows|
      ensures rows[i].kind == Refused
    {
      assert rows[i] in rows;
    }
  }

  /** Every row of its plan undoes something, whatever is left to undo. */
  lemma PlanUndoes(f: Facts, c0: Cluster, c: Cluster, m: Mark, st: Record, inTree: string -> bool)
    requires Underway(c0, c, m, st, inTree) && Lists(f, c)
    ensures UndoRows(c0, m, st, UninstallPlan(f, st, inTree, ""))
  {
    var ours, restored, created := OursOf(c0, c, m), RestoredOf(c0, c, m, inTree), CreatedOf(c0, c, m);
    NamesUnderway(f, c0, c, m, st, inTree);
    CreatedUnderway(f, c0, c, m, st, inTree);
    UnknownRowsAre(f, st, inTree);
    QueueRowsUndo(f, c0, c, m, st, inTree);
    DeletionsUndo(f, c0, c, m, st);
    RestoresUndo(c0, m, st, restored);
    SixUndo(c0, m, st, FlatMap(f.pes, UnknownRow(st, inTree, "")),
            FlatMap(f.queues, QueueRows(created, ours, restored, st, inTree)), DeleteQueueRows(created),
            FlatMap(ours, DeletePERow()), DeleteComplexRows(f, st), FlatMap(restored, RestoreRows(st)));
  }

  // ---------- Where it ends ----------

  /** A site's PE whose start_proc_args are its own again while something else of it is not. */
  ghost predicate HalfRestored(c0: Cluster, c: Cluster, m: Mark, inTree: string -> bool) {
    && m.pe in c0.pes && m.pe in c.pes && !inTree(c.pes[m.pe].startProcArgs)
    && !(c.pes[m.pe] == c0.pes[m.pe]
         && forall n | n in c0.queues && n in c.queues :: c.queues[n].peList == c0.queues[n].peList)
  }

  lemma QueueUnwinds(q0: Queue, q: Queue, m: Mark, st: Record, hasPE: bool, site: bool, inTree: string -> bool,
                     ours: seq<string>, restored: seq<string>)
    requires PartQueue(q0, q, m, st, hasPE, site, inTree)
    requires ours == if !site && hasPE then [m.pe] else []
    requires restored == [] || (site && restored == [m.pe])
    requires !site ==> m.pe !in q0.peList
    ensures Unwired(q, ours, restored, st, inTree) == q0 <==> !site || restored != [] || q.peList == q0.peList
  {
    OneUnlisted(q.peList, m.pe);
    OneUnadded(q.peList, q.name, m.pe, st);
    if m.pe !in q0.peList {
      WithoutLast(q0.peList, m.pe);
      WithoutMembers(q0.peList, m.pe);
    }
    if !site {
      OneUnadded(q0.peList, q.name, m.pe, st);
    }
  }

  lemma QueuesUnwind(c0: Cluster, c: Cluster, m: Mark, st: Record, inTree: string -> bool)
    requires Underway(c0, c, m, st, inTree)
    ensures forall n | n in c0.queues ::
      Unwired(c.queues[n], OursOf(c0, c, m), RestoredOf(c0, c, m, inTree), st, inTree) == c0.queues[n]
      <==> m.pe !in c0.pes || RestoredOf(c0, c, m, inTree) != [] || c.queues[n].peList == c0.queues[n].peList
  {
    forall n | n in c0.queues
      ensures Unwired(c.queues[n], OursOf(c0, c, m), RestoredOf(c0, c, m, inTree), st, inTree) == c0.queues[n]
        <==> m.pe !in c0.pes || RestoredOf(c0, c, m, inTree) != [] || c.queues[n].peList == c0.queues[n].peList
    {
      assert PartQueue(c0.queues[n], c.queues[n], m, st, m.pe in c.pes, m.pe in c0.pes, inTree);
      assert m.pe !in c0.pes ==> !Offers(c0.queues[n], m.pe);
      QueueUnwinds(c0.queues[n], c.queues[n], m, st, m.pe in c.pes, m.pe in c0.pes, inTree, OursOf(c0, c, m),
                   RestoredOf(c0, c, m, inTree));
    }
  }

  lemma LeftUnderway(c0: Cluster, c: Cluster, m: Mark, st: Record, inTree: string -> bool)
    requires Underway(c0, c, m, st, inTree)
    ensures var left := QueuesLeft(c, CreatedOf(c0, c, m), OursOf(c0, c, m), RestoredOf(c0, c, m, inTree), st, inTree);
      left == c0.queues <==> m.pe !in c0.pes || RestoredOf(c0, c, m, inTree) != []
                             || forall n | n in c0.queues && n in c.queues :: c.queues[n].peList == c0.queues[n].peList
  {
    QueuesUnwind(c0, c, m, st, inTree);
    LeftAre(c0, c, CreatedOf(c0, c, m), m, OursOf(c0, c, m), RestoredOf(c0, c, m, inTree), st, inTree);
  }

  lemma LeftAre(c0: Cluster, c: Cluster, created: string, m: Mark, ours: seq<string>, restored: seq<string>,
                st: Record, inTree: string -> bool)
    requires c0.queues.Keys <= c.queues.Keys <= c0.queues.Keys + {m.own} && created == CreatedOf(c0, c, m)
    requires "" !in c0.queues && m.own != ""
    ensures var left := QueuesLeft(c, created, ours, restored, st, inTree);
      left == c0.queues
      <==> forall n | n in c0.queues :: Unwired(c.queues[n], ours, restored, st, inTree) == c0.queues[n]
  {
    var left := QueuesLeft(c, created, ours, restored, st, inTree);
    assert left.Keys == c0.queues.Keys;
    if left == c0.queues {
      forall n | n in c0.queues
        ensures Unwired(c.queues[n], ours, restored, st, inTree) == c0.queues[n]
      {
        assert left[n] == c0.queues[n];
      }
    }
  }

  lemma PEUnwinds(p0: PE, p: PE, m: Mark, st: Record)
    requires PartPE(p0, p, m, st) && p0.startProcArgs != "" && p.name == m.pe && TookOver(st, m.pe)
    ensures RestoredPE(p, st) == p0
  {
    AttrsOfAre(st.replaced, PEKey(m.pe));
    AttrsAreRestored(p0, p, AttrsOf(st.replaced, PEKey(m.pe)));
    HasIsRecorded(st, m.pe, Slots);
    HasIsRecorded(st, m.pe, StartProcArgs);
    HasIsRecorded(st, m.pe, ControlSlaves);
  }

  lemma PEsUnderway(c0: Cluster, c: Cluster, m: Mark, st: Record, inTree: string -> bool)
    requires Underway(c0, c, m, st, inTree)
    ensures RestoreNamed(PEsLeft(c, OursOf(c0, c, m)), RestoredOf(c0, c, m, inTree), st) == c0.pes
      <==> m.pe !in c0.pes || RestoredOf(c0, c, m, inTree) != [] || c.pes[m.pe] == c0.pes[m.pe]
  {
    if m.pe in c0.pes {
      PEUnwinds(c0.pes[m.pe], c.pes[m.pe], m, st);
      SitePEsLeft(c0, c, m, st, RestoredOf(c0, c, m, inTree));
    } else {
      OwnPEsLeft(c0, c, m, st);
    }
  }

  lemma OwnPEsLeft(c0: Cluster, c: Cluster, m: Mark, st: Record)
    requires PartPEs(c0, c, m, st) && m.pe !in c0.pes
    ensures RestoreNamed(PEsLeft(c, OursOf(c0, c, m)), [], st) == c0.pes
  {
  }

  lemma SitePEsLeft(c0: Cluster, c: Cluster, m: Mark, st: Record, restored: seq<string>)
    requires PartPEs(c0, c, m, st) && m.pe in c0.pes && (restored == [] || restored == [m.pe])
    requires RestoredPE(c.pes[m.pe], st) == c0.pes[m.pe]
    ensures RestoreNamed(PEsLeft(c, []), restored, st) == c0.pes <==> restored != [] || c.pes[m.pe] == c0.pes[m.pe]
  {
    var left := RestoreNamed(PEsLeft(c, []), restored, st);
    assert left.Keys == c0.pes.Keys;
    assert left[m.pe] == if restored != [] then c0.pes[m.pe] else c.pes[m.pe];
    assert forall n | n in c0.pes && n != m.pe :: left[n] == c0.pes[n];
  }

  lemma EndUnderway(f: Facts, c0: Cluster, c: Cluster, m: Mark, st: Record, inTree: string -> bool)
    requires Underway(c0, c, m, st, inTree) && Lists(f, c)
    ensures Ended(f, c, st, inTree, "") == c0 <==> !HalfRestored(c0, c, m, inTree)
  {
    NamesUnderway(f, c0, c, m, st, inTree);
    CreatedUnderway(f, c0, c, m, st, inTree);
    LeftUnderway(c0, c, m, st, inTree);
    PEsUnderway(c0, c, m, st, inTree);
    ComplexesEnd(f, c0, c, m, st);
  }

  lemma EndsUnderway(f: Facts, c0: Cluster, c: Cluster, m: Mark, st: Record, inTree: string -> bool)
    requires Underway(c0, c, m, st, inTree) && Lists(f, c)
    ensures UninstallResult(c, UninstallPlan(f, st, inTree, "")) == Ended(f, c, st, inTree, "")
  {
    NotRefused(f, c0, c, m, st, inTree);
    NoRefusalIs(UninstallPlan(f, st, inTree, ""));
    UninstallEnds(f, c, st, inTree, "");
  }

  lemma Finishes(f: Facts, c0: Cluster, c: Cluster, m: Mark, st: Record, inTree: string -> bool)
    requires Underway(c0, c, m, st, inTree) && Lists(f, c) && !HalfRestored(c0, c, m, inTree)
    ensures UninstallResult(c, UninstallPlan(f, st, inTree, "")) == c0
  {
    EndsUnderway(f, c0, c, m, st, inTree);
    EndUnderway(f, c0, c, m, st, inTree);
  }

  lemma FallsShort(f: Facts, c0: Cluster, c: Cluster, m: Mark, st: Record, inTree: string -> bool)
    requires Underway(c0, c, m, st, inTree) && Lists(f, c) && HalfRestored(c0, c, m, inTree)
    ensures UninstallResult(c, UninstallPlan(f, st, inTree, "")) != c0
  {
    EndsUnderway(f, c0, c, m, st, inTree);
    EndUnderway(f, c0, c, m, st, inTree);
  }

  // ---------- The theorems ----------

  /** The cluster after any number of tries, each failing where it may, with one record. */
  function Tries(c: Cluster, st: Record, inTree: string -> bool, discover: Cluster -> Facts, tries: seq<seq<bool>>)
    : Cluster
    decreases |tries|
  {
    if tries == [] then c
    else
      Tries(UninstallResult(c, UninstallPlan(discover(c), st, inTree, ""), tries[0]), st, inTree, discover, tries[1..])
  }

  lemma TryStaysUnderway(f: Facts, c0: Cluster, c: Cluster, m: Mark, st: Record, inTree: string -> bool,
                         fails: seq<bool>)
    requires Underway(c0, c, m, st, inTree) && Lists(f, c)
    ensures Underway(c0, UninstallResult(c, UninstallPlan(f, st, inTree, ""), fails), m, st, inTree)
  {
    if !HasRefusal(UninstallPlan(f, st, inTree, "")) {
      PlanUndoes(f, c0, c, m, st, inTree);
      RunStaysUnderway(c0, c, m, st, inTree, UninstallPlan(f, st, inTree, ""), fails);
    }
  }

  lemma {:induction false} TriesStayUnderway(c0: Cluster, c: Cluster, m: Mark, st: Record, inTree: string -> bool,
                                             discover: Cluster -> Facts, tries: seq<seq<bool>>)
    requires Underway(c0, c, m, st, inTree) && forall x | Named(x) :: Lists(discover(x), x)
    ensures Underway(c0, Tries(c, st, inTree, discover, tries), m, st, inTree)
    decreases |tries|
  {
    if tries != [] {
      TryStaysUnderway(discover(c), c0, c, m, st, inTree, tries[0]);
      var d := UninstallResult(c, UninstallPlan(discover(c), st, inTree, ""), tries[0]);
      TriesStayUnderway(c0, d, m, st, inTree, discover, tries[1..]);
    }
  }

  /** With a PE of install's own: after any number of uninstalls that failed anywhere, one
      that goes through gives back the site's cluster, as an uninterrupted one would have. */
  lemma OwnPERerunConverges(c0: Cluster, c: Cluster, m: Mark, st: Record, inTree: string -> bool,
                            discover: Cluster -> Facts, tries: seq<seq<bool>>)
    requires Situation(c0, c, m, st, inTree) && m.own == DEFAULT_QUEUE && m.cx == SHIM_COMPLEX
    requires m.pe !in c0.pes && forall x | Named(x) :: Lists(discover(x), x)
    ensures var d := Tries(c, st, inTree, discover, tries);
      UninstallResult(d, UninstallPlan(discover(d), st, inTree, "")) == c0
  {
    TrackedIsUnderway(c0, c, m, st, inTree);
    TriesStayUnderway(c0, c, m, st, inTree, discover, tries);
    var d := Tries(c, st, inTree, discover, tries);
    Finishes(discover(d), c0, d, m, st, inTree);
  }

  /** With a site's PE taken over, and an undoable record: the same, if and only if the tries
      before did not leave the PE half restored. */
  lemma TakenPERerunIff(c0: Cluster, c: Cluster, m: Mark, st: Record, inTree: string -> bool,
                        discover: Cluster -> Facts, tries: seq<seq<bool>>)
    requires Situation(c0, c, m, st, inTree) && m.own == DEFAULT_QUEUE && m.cx == SHIM_COMPLEX
    requires m.pe in c0.pes && TookOver(st, m.pe) && Undoable(st, m.pe)
    requires forall x | Named(x) :: Lists(discover(x), x)
    ensures var d := Tries(c, st, inTree, discover, tries);
      UninstallResult(d, UninstallPlan(discover(d), st, inTree, "")) == c0 <==> !HalfRestored(c0, d, m, inTree)
  {
    TrackedIsUnderway(c0, c, m, st, inTree);
    TriesStayUnderway(c0, c, m, st, inTree, discover, tries);
    var d := Tries(c, st, inTree, discover, tries);
    if HalfRestored(c0, d, m, inTree) {
      FallsShort(discover(d), c0, d, m, st, inTree);
    } else {
      Finishes(discover(d), c0, d, m, st, inTree);
    }
  }

  // ---------- A PE left half restored ----------

  /** The rows of an uninstall that no longer knows the PE: none about it, or about a list. */
  predicate LeavesPE(ch: Change) {
    ch.kind == SetStarter || ch.kind == DeleteQueue || ch.kind == DeleteComplex || ch.kind == Refused
  }

  ghost predicate AllLeavePE(rows: seq<Change>) {
    forall ch | ch in rows :: LeavesPE(ch)
  }

  lemma QueueLeavesPE(q: Queue, created: string, st: Record, inTree: string -> bool)
    ensures AllLeavePE(RowsUnlessDeleted(q, created, [], [], st, inTree))
  {
    RefusalKinds(q, [], inTree);
    FiveParts(FlatMap([], OursRemoval(q)), FlatMap([], RestoredRemoval(q, st)),
              FlatMap(q.peListOverrides, OverrideRefusal(q, [])),
              FlatMap(q.starterOverrides, StarterRefusal(q, inTree)), StarterRow(q, st, inTree));
  }

  lemma QueuesLeavePE(f: Facts, created: string, st: Record, inTree: string -> bool)
    ensures AllLeavePE(FlatMap(f.queues, QueueRows(created, [], [], st, inTree)))
  {
    var rowsOf := QueueRows(created, [], [], st, inTree);
    FlatMapMembers(f.queues, rowsOf);
    forall q, ch | q in f.queues && ch in rowsOf(q)
      ensures LeavesPE(ch)
    {
      QueueLeavesPE(q, created, st, inTree);
    }
  }

  lemma SixLeavePE(r0: seq<Change>, r1: seq<Change>, r2: seq<Change>, r3: seq<Change>, r4: seq<Change>,
                   r5: seq<Change>)
    requires NoUndo(r0) && AllLeavePE(r1) && AllLeavePE(r2) && AllLeavePE(r3) && AllLeavePE(r4) && AllLeavePE(r5)
    ensures AllLeavePE(r0 + r1 + r2 + r3 + r4 + r5)
  {
    forall ch | ch in r0 + r1 + r2 + r3 + r4 + r5
      ensures LeavesPE(ch)
    {
      assert ch in r0 || ch in r1 || ch in r2 || ch in r3 || ch in r4 || ch in r5;
    }
  }

  lemma NoPERows(st: Record)
    ensures FlatMap([], DeletePERow()) == [] && FlatMap([], RestoreRows(st)) == []
  {
  }

  lemma DeletionsLeavePE(f: Facts, created: string, st: Record)
    ensures AllLeavePE(DeleteQueueRows(created)) && AllLeavePE(DeleteComplexRows(f, st))
  {
  }

  lemma RowsLeavePE(f: Facts, st: Record, inTree: string -> bool)
    requires NamesOf(f.pes, Ours, st, inTree, "") == [] && NamesOf(f.pes, Restored, st, inTree, "") == []
    ensures AllLeavePE(UninstallPlan(f, st, inTree, ""))
  {
    var created := QueueToDelete(f.queues, st, [], inTree);
    UnknownRowsAre(f, st, inTree);
    QueuesLeavePE(f, created, st, inTree);
    NoPERows(st);
    DeletionsLeavePE(f, created, st);
    SixLeavePE(FlatMap(f.pes, UnknownRow(st, inTree, "")), FlatMap(f.queues, QueueRows(created, [], [], st, inTree)),
               DeleteQueueRows(created), FlatMap([], DeletePERow()), DeleteComplexRows(f, st),
               FlatMap([], RestoreRows(st)));
  }

  lemma PlanLeavesPE(f: Facts, c0: Cluster, c: Cluster, m: Mark, st: Record, inTree: string -> bool)
    requires Underway(c0, c, m, st, inTree) && Lists(f, c) && HalfRestored(c0, c, m, inTree)
    ensures AllLeavePE(UninstallPlan(f, st, inTree, ""))
  {
    NamesUnderway(f, c0, c, m, st, inTree);
    RowsLeavePE(f, st, inTree);
  }

  /** d has the PEs of c and, on the queues the site has, its pe_lists. */
  ghost predicate SamePEs(c0: Cluster, c: Cluster, d: Cluster) {
    && d.pes == c.pes
    && forall n | n in c0.queues && n in c.queues && n in d.queues :: d.queues[n].peList == c.queues[n].peList
  }

  lemma StepLeavesPE(c0: Cluster, c: Cluster, d: Cluster, ch: Change, fail: bool)
    requires SamePEs(c0, c, d) && LeavesPE(ch)
    ensures SamePEs(c0, c, Next(d, ch, fail)) && Next(d, ch, fail).queues.Keys <= d.queues.Keys
  {
  }

  lemma {:induction false} RunLeavesPE(c0: Cluster, c: Cluster, d: Cluster, rows: seq<Change>, fails: seq<bool>)
    requires SamePEs(c0, c, d) && AllLeavePE(rows)
    ensures SamePEs(c0, c, After(d, rows, fails))
    decreases |rows|
  {
    if rows != [] {
      assert rows[0] in rows;
      StepLeavesPE(c0, c, d, rows[0], Head(fails));
      RunLeavesPE(c0, c, Next(d, rows[0], Head(fails)), rows[1..], Tail(fails));
    }
  }

  /** Once half restored, always: no further uninstall touches the PE or a pe_list. */
  lemma HalfRestoredStays(f: Facts, c0: Cluster, c: Cluster, m: Mark, st: Record, inTree: string -> bool,
                          fails: seq<bool>)
    requires Underway(c0, c, m, st, inTree) && Lists(f, c) && HalfRestored(c0, c, m, inTree)
    ensures HalfRestored(c0, UninstallResult(c, UninstallPlan(f, st, inTree, ""), fails), m, inTree)
  {
    var plan := UninstallPlan(f, st, inTree, "");
    PlanLeavesPE(f, c0, c, m, st, inTree);
    PlanUndoes(f, c0, c, m, st, inTree);
    RunStaysHalf(c0, c, m, st, inTree, plan, fails);
  }

  lemma RunStaysHalf(c0: Cluster, c: Cluster, m: Mark, st: Record, inTree: string -> bool, rows: seq<Change>,
                     fails: seq<bool>)
    requires Underway(c0, c, m, st, inTree) && HalfRestored(c0, c, m, inTree)
    requires AllLeavePE(rows) && UndoRows(c0, m, st, rows)
    ensures HalfRestored(c0, UninstallResult(c, rows, fails), m, inTree)
  {
    if !HasRefusal(rows) {
      RunLeavesPE(c0, c, c, rows, fails);
      RunStaysUnderway(c0, c, m, st, inTree, rows, fails);
      SameIsHalf(c0, c, After(c, rows, fails), m, st, inTree);
    }
  }

  lemma SameIsHalf(c0: Cluster, c: Cluster, d: Cluster, m: Mark, st: Record, inTree: string -> bool)
    requires PartQueues(c0, c, m, st, inTree) && PartQueues(c0, d, m, st, inTree)
    requires SamePEs(c0, c, d) && HalfRestored(c0, c, m, inTree)
    ensures HalfRestored(c0, d, m, inTree)
  {
  }

  /** So it happens: any site with one PE that lacks control_slaves, taken over; the first
      uninstall writes its start_proc_args back and fails to write the other value. */
  lemma HalfRestoredHappens(p0: PE, prefix: string, inTree: string -> bool)
    requires p0.name != "" && p0.startProcArgs != "" && !p0.controlSlaves && !RunsAsOtherUser(p0.startProcArgs)
    requires inTree(StarterPath(prefix)) && inTree(HookPath(prefix)) && !inTree(p0.startProcArgs)
    ensures var m := MarkOf(prefix, p0.name);
      var p := p0.(startProcArgs := HookPath(prefix), controlSlaves := true);
      var c0, c := Cluster(map[], map[p0.name := p0], map[]), Cluster(map[], map[p0.name := p], map[]);
      var st := TakenRecord(p0);
      && Situation(c0, c, m, st, inTree) && TookOver(st, m.pe) && Undoable(st, m.pe) && Lists(Facts([], [p], []), c)
      && HalfRestored(c0, UninstallResult(c, UninstallPlan(Facts([], [p], []), st, inTree, ""), [false, true]), m,
                      inTree)
  {
    var m := MarkOf(prefix, p0.name);
    var p := p0.(startProcArgs := HookPath(prefix), controlSlaves := true);
    var c0, c := Cluster(map[], map[p0.name := p0], map[]), Cluster(map[], map[p0.name := p], map[]);
    var f, st := Facts([], [p], []), TakenRecord(p0);
    TakenSituation(p0, prefix, inTree);
    TakenPlan(p0, prefix, inTree);
    WritesAreApplied(p0, p, UninstallPlan(f, st, inTree, ""));
  }

  lemma WritesAreApplied(p0: PE, p: PE, rows: seq<Change>)
    requires rows == [Write(p0, StartProcArgs, p0.startProcArgs), Write(p0, ControlSlaves, "FALSE")]
    requires p0.startProcArgs != ""
    ensures UninstallResult(Cluster(map[], map[p0.name := p], map[]), rows, [false, true])
         == Cluster(map[], map[p0.name := p.(startProcArgs := p0.startProcArgs)], map[])
  {
    TwoWrites(p0, p, rows);
  }

  /** What a forced install that wired no queue has recorded. */
  function TakenRecord(p0: PE): Record {
    Record("", "", "", [], [Replaced(PEKey(p0.name), StartProcArgs, p0.startProcArgs),
                            Replaced(PEKey(p0.name), ControlSlaves, "FALSE")])
  }

  lemma TakenSituation(p0: PE, prefix: string, inTree: string -> bool)
    requires p0.name != "" && p0.startProcArgs != "" && !p0.controlSlaves && !RunsAsOtherUser(p0.startProcArgs)
    requires inTree(StarterPath(prefix)) && inTree(HookPath(prefix)) && !inTree(p0.startProcArgs)
    ensures var m := MarkOf(prefix, p0.name);
      var p := p0.(startProcArgs := HookPath(prefix), controlSlaves := true);
      var c0, c := Cluster(map[], map[p0.name := p0], map[]), Cluster(map[], map[p0.name := p], map[]);
      var st := TakenRecord(p0);
      && Situation(c0, c, m, st, inTree) && TookOver(st, m.pe) && Undoable(st, m.pe) && Lists(Facts([], [p], []), c)
  {
    StarterIsAPath(prefix);
    assert |HookPath(prefix)| > 4;
    TakenValues(p0);
    TakenIsTracked(p0, prefix);
  }

  lemma TakenIsTracked(p0: PE, prefix: string)
    requires p0.name != "" && p0.startProcArgs != "" && !p0.controlSlaves
    ensures var m := MarkOf(prefix, p0.name);
      var p := p0.(startProcArgs := HookPath(prefix), controlSlaves := true);
      Tracked(Cluster(map[], map[p0.name := p0], map[]), Cluster(map[], map[p0.name := p], map[]), m, TakenRecord(p0))
  {
    TakenValues(p0);
  }

  lemma AttrsOfTwo(a: Replaced, b: Replaced, other: Attr)
    requires a.target == b.target && a.attr != b.attr
    ensures AttrsOf([a, b], a.target) == [a, b]
    ensures OldOf([a, b], a.target, a.attr) == Some(a.prev) && OldOf([a, b], a.target, b.attr) == Some(b.prev)
    ensures other != a.attr && other != b.attr ==> OldOf([a, b], a.target, other) == None
  {
    assert [a, b][1..] == [b] && [b][1..] == [];
    assert AttrsOf([b], a.target) == [b] + AttrsOf([], a.target);
    assert OldOf([b], a.target, b.attr) == Some(b.prev);
    assert other != b.attr ==> OldOf([b], a.target, other) == OldOf([], a.target, other);
  }

  lemma TakenValues(p0: PE)
    ensures var st := TakenRecord(p0);
      && OldOf(st.replaced, PEKey(p0.name), StartProcArgs) == Some(p0.startProcArgs)
      && OldOf(st.replaced, PEKey(p0.name), ControlSlaves) == Some("FALSE")
      && OldOf(st.replaced, PEKey(p0.name), Slots) == None
      && AttrsOf(st.replaced, PEKey(p0.name)) == st.replaced
  {
    var rs := TakenRecord(p0).replaced;
    AttrsOfTwo(rs[0], rs[1], Slots);
  }

  function Write(p0: PE, attr: Attr, value: string): Change {
    Change(SetPEAttr, p0.name, attr, "", value, None)
  }

  lemma TakenPlan(p0: PE, prefix: string, inTree: string -> bool)
    requires p0.name != "" && p0.startProcArgs != "" && !p0.controlSlaves && !RunsAsOtherUser(p0.startProcArgs)
    requires inTree(StarterPath(prefix)) && inTree(HookPath(prefix)) && !inTree(p0.startProcArgs)
    ensures var p := p0.(startProcArgs := HookPath(prefix), controlSlaves := true);
      UninstallPlan(Facts([], [p], []), TakenRecord(p0), inTree, "")
      == [Write(p0, StartProcArgs, p0.startProcArgs), Write(p0, ControlSlaves, "FALSE")]
  {
    var p := p0.(startProcArgs := HookPath(prefix), controlSlaves := true);
    TakenValues(p0);
    TakenRows(p0);
    OnePEPlan(p, TakenRecord(p0), inTree);
  }

  /** With a PE to restore and nothing else, the plan is what restores it. */
  lemma OnePEPlan(p: PE, st: Record, inTree: string -> bool)
    requires Judge(p, st, inTree, "") == Restored && st.createdQueue == "" && st.createdComplex == ""
    ensures UninstallPlan(Facts([], [p], []), st, inTree, "") == RestoreRows(st)(p.name)
  {
    OnePENames(p, st, inTree);
    NoPERows(st);
    FlatMapOne(p.name, RestoreRows(st));
  }

  lemma OnePENames(p: PE, st: Record, inTree: string -> bool)
    requires Judge(p, st, inTree, "") == Restored
    ensures NamesOf([p], Ours, st, inTree, "") == [] && NamesOf([p], Restored, st, inTree, "") == [p.name]
    ensures FlatMap([p], UnknownRow(st, inTree, "")) == []
  {
    FlatMapOne(p, NameIf(Ours, st, inTree, ""));
    FlatMapOne(p, NameIf(Restored, st, inTree, ""));
    FlatMapOne(p, UnknownRow(st, inTree, ""));
  }

  lemma RowsOfTwo(pe: string, a: Replaced, b: Replaced)
    requires !RunsAsOtherUser(a.prev) && !RunsAsOtherUser(b.prev)
    ensures FlatMap([a, b], RestoreRow(pe))
         == [Change(SetPEAttr, pe, a.attr, "", a.prev, None), Change(SetPEAttr, pe, b.attr, "", b.prev, None)]
  {
    assert [a, b][1..] == [b] && [b][1..] == [];
    assert FlatMap([b], RestoreRow(pe)) == RestoreRow(pe)(b) + FlatMap([], RestoreRow(pe));
  }

  lemma TakenRows(p0: PE)
    requires !RunsAsOtherUser(p0.startProcArgs)
    ensures RestoreRows(TakenRecord(p0))(p0.name)
         == [Write(p0, StartProcArgs, p0.startProcArgs), Write(p0, ControlSlaves, "FALSE")]
  {
    var rs := TakenRecord(p0).replaced;
    TakenValues(p0);
    PlainWord("FALSE");
    RowsOfTwo(p0.name, rs[0], rs[1]);
  }

  /** The first write goes through, the second fails. */
  lemma TwoWrites(p0: PE, p: PE, rows: seq<Change>)
    requires rows == [Write(p0, StartProcArgs, p0.startProcArgs), Write(p0, ControlSlaves, "FALSE")]
    requires p0.startProcArgs != ""
    ensures After(Cluster(map[], map[p0.name := p], map[]), rows, [false, true])
         == Cluster(map[], map[p0.name := p.(startProcArgs := p0.startProcArgs)], map[])
  {
    var c := Cluster(map[], map[p0.name := p], map[]);
    var d := Next(c, rows[0], false);
    assert rows[1..] == [rows[1]] && [rows[1]][1..] == [];
    assert [false, true][1..] == [true] && [true][1..] == [];
    assert After(c, rows, [false, true]) == After(d, rows[1..], [true]);
    assert After(d, [rows[1]], [true]) == Next(d, rows[1], true) == d;
  }
}
