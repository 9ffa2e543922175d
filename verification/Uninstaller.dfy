/**
 The inverse planner: from a reading of the cluster and the install record to the
 changes that undo the install, or the refusals that say what must be fixed by
 hand first. The install is recognised by what points into its tree (inTree).
 */
module Uninstaller {
  import opened Sequences
  import opened Text
  import opened Scheduler
  import opened Planner
  import opened InstallRecord

  /** The executable of a starter or start_proc_args value, without "user@". */
  function Command(v: string): string {
    var f := Fields(v);
    if f == [] then ""
    else
      var i := IndexOf(f[0], '@');
      if i > 0 && '/' !in f[0][..i] then f[0][i + 1..] else f[0]
  }

  /** Grid Engine's "user@/path" form, which runs the command as that user. */
  predicate RunsAsOtherUser(v: string) {
    var f := Fields(v);
    f != [] && Command(v) != f[0]
  }

  // ---------- The parts of an uninstall plan ----------

  predicate TookOver(st: Record, pe: string) {
    OldOf(st.replaced, PEKey(pe), StartProcArgs).Some?
  }

  datatype Verdict = NotOurs | Ours | Restored | Unknown

  /** What a PE is to this install. */
  function Judge(pe: PE, st: Record, inTree: string -> bool, extraPE: string): Verdict {
    if !inTree(pe.startProcArgs) then NotOurs
    else if TookOver(st, pe.name) then Restored
    else if pe.name == DEFAULT_PE || pe.name == st.createdPE || pe.name == extraPE then Ours
    else Unknown
  }

  function NameIf(v: Verdict, st: Record, inTree: string -> bool, extraPE: string): PE -> seq<string> {
    (pe: PE) => if Judge(pe, st, inTree, extraPE) == v then [pe.name] else []
  }

  function NamesOf(pes: seq<PE>, v: Verdict, st: Record, inTree: string -> bool, extraPE: string): seq<string> {
    FlatMap(pes, NameIf(v, st, inTree, extraPE))
  }

  function UnknownRow(st: Record, inTree: string -> bool, extraPE: string): PE -> seq<Change> {
    (pe: PE) =>
      if Judge(pe, st, inTree, extraPE) == Unknown
      then [RefusedRow(pe.name, StartProcArgs, pe.startProcArgs, "")] else []
  }

  function RemoveRow(q: string, pe: string): Change {
    Change(RemoveFromPEList, q, PEListAttr, pe, "", None)
  }

  function OursRemoval(q: Queue): string -> seq<Change> {
    pe => if pe in q.peList then [RemoveRow(q.name, pe)] else []
  }

  function RestoredRemoval(q: Queue, st: Record): string -> seq<Change> {
    pe => if pe in q.peList && PEListAdd(q.name, pe) in st.peListAdds then [RemoveRow(q.name, pe)] else []
  }

  function OverrideHit(q: Queue, ov: string): string -> seq<Change> {
    pe => if pe in OverrideWords(ov) then [RefusedRow(q.name, PEListAttr, ov, "")] else []
  }

  function OverrideRefusal(q: Queue, ours: seq<string>): string -> seq<Change> {
    (ov: string) => FlatMap(ours, OverrideHit(q, ov))
  }

  function TrimBrackets(s: string): string {
    if s != [] && (s[0] == '[' || s[0] == ']') then TrimBrackets(s[1..])
    else if s != [] && (s[|s| - 1] == '[' || s[|s| - 1] == ']') then TrimBrackets(s[..|s| - 1])
    else s
  }

  /** The value of a per-host entry "[host=value]". */
  function OverrideValue(ov: string): Option<string> {
    var t := TrimBrackets(ov);
    var i := IndexOf(t, '=');
    if i < 0 then None else Some(t[i + 1..])
  }

  predicate OverrideInTree(ov: string, inTree: string -> bool) {
    var v := OverrideValue(ov);
    v.Some? && inTree(v.value)
  }

  function StarterRefusal(q: Queue, inTree: string -> bool): string -> seq<Change> {
    (ov: string) => if OverrideInTree(ov, inTree) then [RefusedRow(q.name, StarterMethod, ov, "")] else []
  }

  predicate StartsInTree(q: Queue, inTree: string -> bool) {
    q.starterMethod != "" && inTree(q.starterMethod)
  }

  function OldStarter(st: Record, q: string): string {
    var r := OldOf(st.replaced, QueueKey(q), StarterMethod);
    if r.Some? then r.value else ""
  }

  function StarterRow(q: Queue, st: Record, inTree: string -> bool): seq<Change> {
    if StartsInTree(q, inTree)
    then [Change(SetStarter, q.name, StarterMethod, q.starterMethod, OldStarter(st, q.name), None)]
    else []
  }

  /** Everything the plan does to one queue that it keeps. */
  function UnwireRows(q: Queue, ours: seq<string>, restored: seq<string>, st: Record, inTree: string -> bool)
    : seq<Change>
  {
    FlatMap(ours, OursRemoval(q)) + FlatMap(restored, RestoredRemoval(q, st))
    + FlatMap(q.peListOverrides, OverrideRefusal(q, ours))
    + FlatMap(q.starterOverrides, StarterRefusal(q, inTree))
    + StarterRow(q, st, inTree)
  }

  function RowsUnlessDeleted(q: Queue, created: string, ours: seq<string>, restored: seq<string>, st: Record,
                             inTree: string -> bool): seq<Change>
  {
    if q.name == created then [] else UnwireRows(q, ours, restored, st, inTree)
  }

  function QueueRows(created: string, ours: seq<string>, restored: seq<string>, st: Record, inTree: string -> bool)
    : Queue -> seq<Change>
  {
    (q: Queue) => RowsUnlessDeleted(q, created, ours, restored, st, inTree)
  }

  /** q still looks like the queue install created. */
  predicate CreatedByShim(q: Queue, ours: seq<string>, inTree: string -> bool) {
    && (q.starterMethod == "" || inTree(q.starterMethod))
    && (forall i | 0 <= i < |q.peList| :: q.peList[i] in ours)
    && q.peListOverrides == []
  }

  /** The queue to delete, "" for none. */
  function QueueToDelete(qs: seq<Queue>, st: Record, ours: seq<string>, inTree: string -> bool): string {
    var q := FindQueue(qs, DEFAULT_QUEUE);
    if st.createdQueue == DEFAULT_QUEUE && q.Some? && CreatedByShim(q.value, ours, inTree) then DEFAULT_QUEUE else ""
  }

  function DeletePERow(): string -> seq<Change> {
    pe => [Change(DeletePE, pe, NoAttr, "", "", None)]
  }

  function DeleteQueueRows(created: string): seq<Change> {
    if created != "" then [Change(DeleteQueue, created, NoAttr, "", "", None)] else []
  }

  function DeleteComplexRows(f: Facts, st: Record): seq<Change> {
    var x := FindComplex(f.complexes, SHIM_COMPLEX);
    if st.createdComplex == SHIM_COMPLEX && x.Some? && EqualFold(x.value.requestable, "FORCED")
    then [Change(DeleteComplex, SHIM_COMPLEX, NoAttr, "", "", None)] else []
  }

  function RestoreRow(pe: string): Replaced -> seq<Change> {
    (r: Replaced) =>
      if RunsAsOtherUser(r.prev) then [RefusedRow(pe, r.attr, "", r.prev)]
      else [Change(SetPEAttr, pe, r.attr, "", r.prev, None)]
  }

  function RestoreRows(st: Record): string -> seq<Change> {
    (pe: string) => FlatMap(AttrsOf(st.replaced, PEKey(pe)), RestoreRow(pe))
  }

  /** The whole plan of an uninstall. */
  function UninstallPlan(f: Facts, st: Record, inTree: string -> bool, extraPE: string): seq<Change> {
    var ours := NamesOf(f.pes, Ours, st, inTree, extraPE);
    var restored := NamesOf(f.pes, Restored, st, inTree, extraPE);
    var created := QueueToDelete(f.queues, st, ours, inTree);
    FlatMap(f.pes, UnknownRow(st, inTree, extraPE))
    + FlatMap(f.queues, QueueRows(created, ours, restored, st, inTree))
    + DeleteQueueRows(created)
    + FlatMap(ours, DeletePERow())
    + DeleteComplexRows(f, st)
    + FlatMap(restored, RestoreRows(st))
  }

  /** What an uninstall warns of about slurm.q: it is kept because it no longer looks like
      the one install created, or unwired but kept because nothing says install created it. */
  datatype Warning = NotTheShims | UnwiredButKept

  function NotTheShimsWarning(qs: seq<Queue>, st: Record, created: string): seq<Warning> {
    if st.createdQueue == DEFAULT_QUEUE && FindQueue(qs, DEFAULT_QUEUE).Some? && created == "" then [NotTheShims]
    else []
  }

  function UnwiredWarning(created: string, inTree: string -> bool): Queue -> seq<Warning> {
    (q: Queue) =>
      if q.name == DEFAULT_QUEUE && created == "" && StartsInTree(q, inTree) then [UnwiredButKept] else []
  }

  function UninstallWarnings(f: Facts, st: Record, inTree: string -> bool, extraPE: string): seq<Warning> {
    var created := QueueToDelete(f.queues, st, NamesOf(f.pes, Ours, st, inTree, extraPE), inTree);
    NotTheShimsWarning(f.queues, st, created) + FlatMap(f.queues, UnwiredWarning(created, inTree))
  }

  /** Uninstall applies nothing while any refusal stands. */
  function UninstallResult(c: Cluster, plan: seq<Change>, fails: seq<bool> := []): Cluster {
    if HasRefusal(plan) then c else After(c, plan, fails)
  }

  // ---------- The planner itself ----------

  method RemoveOurs(q: Queue, ours: seq<string>) returns (rows: seq<Change>)
    ensures rows == FlatMap(ours, OursRemoval(q))
  {
    rows := [];
    for i := 0 to |ours|
      invariant rows == FlatMap(ours[..i], OursRemoval(q))
    {
      FlatMapStep(ours, i, OursRemoval(q));
      if ours[i] in q.peList {
        rows := rows + [RemoveRow(q.name, ours[i])];
      }
    }
    WholePrefix(ours);
  }

  method RemoveRestored(q: Queue, restored: seq<string>, st: Record) returns (rows: seq<Change>)
    ensures rows == FlatMap(restored, RestoredRemoval(q, st))
  {
    rows := [];
    for i := 0 to |restored|
      invariant rows == FlatMap(restored[..i], RestoredRemoval(q, st))
    {
      FlatMapStep(restored, i, RestoredRemoval(q, st));
      if restored[i] in q.peList && PEListAdd(q.name, restored[i]) in st.peListAdds {
        rows := rows + [RemoveRow(q.name, restored[i])];
      }
    }
    WholePrefix(restored);
  }

  method RefuseOverride(q: Queue, ov: string, ours: seq<string>) returns (rows: seq<Change>)
    ensures rows == OverrideRefusal(q, ours)(ov)
  {
    rows := [];
    for j := 0 to |ours|
      invariant rows == FlatMap(ours[..j], OverrideHit(q, ov))
    {
      FlatMapStep(ours, j, OverrideHit(q, ov));
      if ours[j] in OverrideWords(ov) {
        rows := rows + [RefusedRow(q.name, PEListAttr, ov, "")];
      }
    }
    WholePrefix(ours);
  }

  method RefuseOverrides(q: Queue, ours: seq<string>) returns (rows: seq<Change>)
    ensures rows == FlatMap(q.peListOverrides, OverrideRefusal(q, ours))
  {
    rows := [];
    for i := 0 to |q.peListOverrides|
      invariant rows == FlatMap(q.peListOverrides[..i], OverrideRefusal(q, ours))
    {
      FlatMapStep(q.peListOverrides, i, OverrideRefusal(q, ours));
      var hits := RefuseOverride(q, q.peListOverrides[i], ours);
      rows := rows + hits;
    }
    WholePrefix(q.peListOverrides);
  }

  method RefuseStarters(q: Queue, inTree: string -> bool) returns (rows: seq<Change>)
    ensures rows == FlatMap(q.starterOverrides, StarterRefusal(q, inTree))
  {
    rows := [];
    for i := 0 to |q.starterOverrides|
      invariant rows == FlatMap(q.starterOverrides[..i], StarterRefusal(q, inTree))
    {
      var ov := q.starterOverrides[i];
      FlatMapStep(q.starterOverrides, i, StarterRefusal(q, inTree));
      if OverrideInTree(ov, inTree) {
        rows := rows + [RefusedRow(q.name, StarterMethod, ov, "")];
      }
    }
    WholePrefix(q.starterOverrides);
  }

  method UnwireQueue(q: Queue, ours: seq<string>, restored: seq<string>, st: Record, inTree: string -> bool)
    returns (rows: seq<Change>)
    ensures rows == UnwireRows(q, ours, restored, st, inTree)
  {
    rows := RemoveOurs(q, ours);
    var more := RemoveRestored(q, restored, st);
    rows := rows + more;
    more := RefuseOverrides(q, ours);
    rows := rows + more;
    more := RefuseStarters(q, inTree);
    rows := rows + more;
    if StartsInTree(q, inTree) {
      rows := rows
        + [Change(SetStarter, q.name, StarterMethod, q.starterMethod, OldStarter(st, q.name), None)];
    }
  }

  method UnwireUnlessDeleted(q: Queue, created: string, ours: seq<string>, restored: seq<string>, st: Record,
                             inTree: string -> bool)
    returns (rows: seq<Change>, warn: seq<Warning>)
    ensures rows == RowsUnlessDeleted(q, created, ours, restored, st, inTree)
    ensures warn == UnwiredWarning(created, inTree)(q)
  {
    warn := [];
    if q.name == created {
      return [], warn;  // deleted below, with everything it offers
    }
    rows := UnwireQueue(q, ours, restored, st, inTree);
    if StartsInTree(q, inTree) && q.name == DEFAULT_QUEUE && created == "" {
      warn := [UnwiredButKept];
    }
  }

  method UnwireQueues(qs: seq<Queue>, created: string, ours: seq<string>, restored: seq<string>, st: Record,
                      inTree: string -> bool)
    returns (rows: seq<Change>, warns: seq<Warning>)
    ensures rows == FlatMap(qs, QueueRows(created, ours, restored, st, inTree))
    ensures warns == FlatMap(qs, UnwiredWarning(created, inTree))
  {
    rows, warns := [], [];
    ghost var rowsOf, warnOf := QueueRows(created, ours, restored, st, inTree), UnwiredWarning(created, inTree);
    for i := 0 to |qs|
      invariant rows == FlatMap(qs[..i], rowsOf) && warns == FlatMap(qs[..i], warnOf)
    {
      FlatMapStep(qs, i, rowsOf);
      FlatMapStep(qs, i, warnOf);
      var more, warn := UnwireUnlessDeleted(qs[i], created, ours, restored, st, inTree);
      rows, warns := rows + more, warns + warn;
    }
    WholePrefix(qs);
  }

  method SortPEs(pes: seq<PE>, st: Record, inTree: string -> bool, extraPE: string)
    returns (ours: seq<string>, restored: seq<string>, rows: seq<Change>)
    ensures ours == NamesOf(pes, Ours, st, inTree, extraPE)
    ensures restored == NamesOf(pes, Restored, st, inTree, extraPE)
    ensures rows == FlatMap(pes, UnknownRow(st, inTree, extraPE))
  {
    ours, restored, rows := [], [], [];
    for i := 0 to |pes|
      invariant ours == NamesOf(pes[..i], Ours, st, inTree, extraPE)
      invariant restored == NamesOf(pes[..i], Restored, st, inTree, extraPE)
      invariant rows == FlatMap(pes[..i], UnknownRow(st, inTree, extraPE))
    {
      var pe := pes[i];
      FlatMapStep(pes, i, NameIf(Ours, st, inTree, extraPE));
      FlatMapStep(pes, i, NameIf(Restored, st, inTree, extraPE));
      FlatMapStep(pes, i, UnknownRow(st, inTree, extraPE));
      if !inTree(pe.startProcArgs) {
        continue;
      }
      if TookOver(st, pe.name) {
        restored := restored + [pe.name];
      } else if pe.name == DEFAULT_PE || pe.name == st.createdPE || pe.name == extraPE {
        ours := ours + [pe.name];
      } else {
        rows := rows + [RefusedRow(pe.name, StartProcArgs, pe.startProcArgs, "")];
      }
    }
    WholePrefix(pes);
  }

  method RestorePE(pe: string, st: Record) returns (rows: seq<Change>)
    ensures rows == RestoreRows(st)(pe)
  {
    rows := [];
    var attrs := AttrsOf(st.replaced, PEKey(pe));
    for i := 0 to |attrs|
      invariant rows == FlatMap(attrs[..i], RestoreRow(pe))
    {
      var r := attrs[i];
      FlatMapStep(attrs, i, RestoreRow(pe));
      if RunsAsOtherUser(r.prev) {
        rows := rows + [RefusedRow(pe, r.attr, "", r.prev)];
        continue;
      }
      rows := rows + [Change(SetPEAttr, pe, r.attr, "", r.prev, None)];
    }
    WholePrefix(attrs);
  }

  method DeletePEs(ours: seq<string>) returns (rows: seq<Change>)
    ensures rows == FlatMap(ours, DeletePERow())
  {
    rows := [];
    for i := 0 to |ours|
      invariant rows == FlatMap(ours[..i], DeletePERow())
    {
      FlatMapStep(ours, i, DeletePERow());
      rows := rows + [Change(DeletePE, ours[i], NoAttr, "", "", None)];
    }
    WholePrefix(ours);
  }

  method RestorePEs(restored: seq<string>, st: Record) returns (rows: seq<Change>)
    ensures rows == FlatMap(restored, RestoreRows(st))
  {
    rows := [];
    for i := 0 to |restored|
      invariant rows == FlatMap(restored[..i], RestoreRows(st))
    {
      FlatMapStep(restored, i, RestoreRows(st));
      var more := RestorePE(restored[i], st);
      rows := rows + more;
    }
    WholePrefix(restored);
  }

  /** The queue to delete, or why the one the record names is kept. */
  method ChooseQueue(qs: seq<Queue>, st: Record, ours: seq<string>, inTree: string -> bool)
    returns (created: string, warnings: seq<Warning>)
    ensures created == QueueToDelete(qs, st, ours, inTree)
    ensures warnings == NotTheShimsWarning(qs, st, created)
  {
    created, warnings := "", [];
    if st.createdQueue == DEFAULT_QUEUE {
      var q := FindQueue(qs, DEFAULT_QUEUE);
      if q.Some? {
        if CreatedByShim(q.value, ours, inTree) {
          created := DEFAULT_QUEUE;
        } else {
          warnings := [NotTheShims];
        }
      }
    }
  }

  method DropComplex(f: Facts, st: Record) returns (rows: seq<Change>)
    ensures rows == DeleteComplexRows(f, st)
  {
    rows := [];
    if st.createdComplex == SHIM_COMPLEX {
      var x := FindComplex(f.complexes, SHIM_COMPLEX);
      if x.Some? && EqualFold(x.value.requestable, "FORCED") {
        rows := [Change(DeleteComplex, SHIM_COMPLEX, NoAttr, "", "", None)];
      }
    }
  }

  method PlanUninstall(f: Facts, st: Record, inTree: string -> bool, extraPE: string)
    returns (changes: seq<Change>, warnings: seq<Warning>)
    ensures changes == UninstallPlan(f, st, inTree, extraPE)
    ensures warnings == UninstallWarnings(f, st, inTree, extraPE)
  {
    var ours, restored, created;
    ours, restored, changes := SortPEs(f.pes, st, inTree, extraPE);
    created, warnings := ChooseQueue(f.queues, st, ours, inTree);
    var rows, warns := UnwireQueues(f.queues, created, ours, restored, st, inTree);
    changes, warnings := changes + rows, warnings + warns;
    rows := [];
    if created != "" {
      rows := [Change(DeleteQueue, created, NoAttr, "", "", None)];
    }
    changes := changes + rows;
    rows := DeletePEs(ours);
    changes := changes + rows;
    rows := DropComplex(f, st);
    changes := changes + rows;
    rows := RestorePEs(restored, st);
    changes := changes + rows;
  }

  // ---------- What still points into the tree ----------

  function QueueReferences(inTree: string -> bool): Queue -> seq<string> {
    (q: Queue) =>
      (if StartsInTree(q, inTree) then [QueueKey(q.name) + " starter_method " + q.starterMethod] else [])
      + FlatMap(q.starterOverrides, OverrideReference(q, inTree))
  }

  function OverrideReference(q: Queue, inTree: string -> bool): string -> seq<string> {
    (ov: string) =>
      if OverrideInTree(ov, inTree) then [QueueKey(q.name) + " starter_method " + ov] else []
  }

  function PEReference(inTree: string -> bool): PE -> seq<string> {
    (pe: PE) =>
      if inTree(pe.startProcArgs) then [PEKey(pe.name) + " start_proc_args " + pe.startProcArgs] else []
  }

  /** What keeps the tree in use, in the order uninstall prints it. */
  function ReferencesOf(f: Facts, inTree: string -> bool): seq<string> {
    FlatMap(f.queues, QueueReferences(inTree)) + FlatMap(f.pes, PEReference(inTree))
  }

  method ReferencesOfQueue(q: Queue, inTree: string -> bool) returns (out: seq<string>)
    ensures out == QueueReferences(inTree)(q)
  {
    var own := [];
    if StartsInTree(q, inTree) {
      own := [QueueKey(q.name) + " starter_method " + q.starterMethod];
    }
    out := own;
    for j := 0 to |q.starterOverrides|
      invariant out == own + FlatMap(q.starterOverrides[..j], OverrideReference(q, inTree))
    {
      FlatMapStep(q.starterOverrides, j, OverrideReference(q, inTree));
      if OverrideInTree(q.starterOverrides[j], inTree) {
        out := out + [QueueKey(q.name) + " starter_method " + q.starterOverrides[j]];
      }
    }
    WholePrefix(q.starterOverrides);
  }

  method References(f: Facts, inTree: string -> bool) returns (out: seq<string>)
    ensures out == ReferencesOf(f, inTree)
  {
    out := [];
    for i := 0 to |f.queues|
      invariant out == FlatMap(f.queues[..i], QueueReferences(inTree))
    {
      FlatMapStep(f.queues, i, QueueReferences(inTree));
      var more := ReferencesOfQueue(f.queues[i], inTree);
      out := out + more;
    }
    WholePrefix(f.queues);
    ghost var queueRefs := out;
    for i := 0 to |f.pes|
      invariant out == queueRefs + FlatMap(f.pes[..i], PEReference(inTree))
    {
      FlatMapStep(f.pes, i, PEReference(inTree));
      if inTree(f.pes[i].startProcArgs) {
        out := out + [PEKey(f.pes[i].name) + " start_proc_args " + f.pes[i].startProcArgs];
      }
    }
    WholePrefix(f.pes);
  }
}
