/**
 The forward planner: from a reading of the cluster and the options of an
 install to the ordered list of changes that makes the cluster run SLURM
 scripts. The functions say what each part of the plan is; the methods build it
 in loops, as the installer does.
 */
module Planner {
  import opened Sequences
  import opened Text
  import opened Scheduler

  const DEFAULT_PE: string := "slurm-shim"
  const PE_SLOTS_NO_CAP: int := 9999999
  const LEGACY_PE_SLOTS: int := 999
  /** The two slot counts as qconf takes them (see SlotTexts). */
  const LEGACY_SLOTS_TEXT: string := "999"
  const SLOTS_NO_CAP_TEXT: string := "9999999"
  const DEFAULT_QUEUE: string := "slurm.q"
  const SHIM_COMPLEX: string := "slurm_shim"
  const SHIM_REQUEST: string := "slurm_shim=TRUE"
  const ALL_QUEUES: string := "all"
  const CLONE_SOURCE: string := "all.q"

  datatype Options = Options(
    prefix: string, peName: string, queues: seq<string>, createdQueue: string, force: bool)

  lemma SlotTexts()
    ensures LEGACY_SLOTS_TEXT == Itoa(LEGACY_PE_SLOTS)
    ensures SLOTS_NO_CAP_TEXT == Itoa(PE_SLOTS_NO_CAP)
    ensures Atoi(LEGACY_SLOTS_TEXT) == Some(LEGACY_PE_SLOTS)
    ensures Atoi(SLOTS_NO_CAP_TEXT) == Some(PE_SLOTS_NO_CAP)
  {
    AtoiOfItoa(LEGACY_PE_SLOTS);
    AtoiOfItoa(PE_SLOTS_NO_CAP);
  }

  function StarterPath(prefix: string): string {
    prefix + "/bin/slurm-shim-starter"
  }

  function HookPath(prefix: string): string {
    prefix + "/bin/slurm-shim-env"
  }

  /** The PE shape the shim needs. */
  function ReferencePE(name: string, prefix: string): PE {
    PE(name, PE_SLOTS_NO_CAP, HookPath(prefix), "NONE", "$round_robin", true, false, false, false)
  }

  function PEName(o: Options): string {
    if o.peName == "" then DEFAULT_PE else o.peName
  }

  // ---------- The parts of a plan ----------

  datatype Fix = Fix(attr: Attr, was: string, want: string)

  function Fixes(have: PE, want: PE): seq<Fix> {
    (if have.startProcArgs != want.startProcArgs
     then [Fix(StartProcArgs, have.startProcArgs, want.startProcArgs)] else [])
    + (if !have.controlSlaves then [Fix(ControlSlaves, "FALSE", "TRUE")] else [])
  }

  function FixChange(name: string, x: Fix, force: bool): Change {
    Change(if force then SetPEAttr else Refused, name, x.attr, x.was, x.want, None)
  }

  function FixRow(name: string, force: bool): Fix -> seq<Change> {
    (x: Fix) => [FixChange(name, x, force)]
  }

  /** The installer's own former cap is raised; a site's choice is not. */
  function RaiseChanges(have: PE): seq<Change> {
    if have.name == DEFAULT_PE && have.slots == LEGACY_PE_SLOTS
    then [Change(SetPEAttr, have.name, Slots, LEGACY_SLOTS_TEXT, SLOTS_NO_CAP_TEXT, None)]
    else []
  }

  /** What to do with a PE that exists. */
  function RepairChanges(have: PE, want: PE, force: bool): seq<Change> {
    var fixes := Fixes(have, want);
    if fixes != [] then RaiseChanges(have) + FlatMap(fixes, FixRow(have.name, force))
    else if RaiseChanges(have) != [] then RaiseChanges(have)
    else [Change(Unchanged, have.name, StartProcArgs, have.startProcArgs, have.startProcArgs, None)]
  }

  function PEChanges(f: Facts, o: Options): seq<Change> {
    var want := ReferencePE(PEName(o), o.prefix);
    var have := FindPE(f.pes, PEName(o));
    if have.None? then [Change(AddPE, PEName(o), NoAttr, "", want.startProcArgs, Some(want))]
    else RepairChanges(have.value, want, o.force)
  }

  /** The queues to wire, and the changes choosing them needs. */
  datatype Selection = Selection(targets: seq<Queue>, changes: seq<Change>)

  function RefusedRow(target: string, attr: Attr, prev: string, next: string): Change {
    Change(Refused, target, attr, prev, next, None)
  }

  function FoundIn(qs: seq<Queue>): string -> seq<Queue> {
    (name: string) => var q := FindQueue(qs, name); if q.Some? then [q.value] else []
  }

  function MissingIn(qs: seq<Queue>): string -> seq<Change> {
    (name: string) => if FindQueue(qs, name).Some? then [] else [RefusedRow(name, QueueRow, "", "")]
  }

  function WiredTo(starter: string): Queue -> seq<Queue> {
    (q: Queue) => if q.starterMethod == starter then [q] else []
  }

  /** The queues already wired to this tree. */
  function Wired(qs: seq<Queue>, starter: string): seq<Queue> {
    FlatMap(qs, WiredTo(starter))
  }

  predicate RightComplex(x: Complex) {
    EqualFold(x.kind, "BOOL") && EqualFold(x.requestable, "FORCED")
  }

  const FRESH_QUEUE: Queue := Queue(DEFAULT_QUEUE, [], [], "", [], [], "")

  /** A first install without --queue: the shim's own queue, cloned from all.q. */
  function FirstInstall(f: Facts): Selection {
    var x := FindComplex(f.complexes, SHIM_COMPLEX);
    if x.Some? && !RightComplex(x.value)
    then Selection([], [RefusedRow(SHIM_COMPLEX, ComplexRow,
                                   x.value.kind + " requestable " + x.value.requestable,
                                   "BOOL requestable FORCED")])
    else
      var src := if FindQueue(f.queues, CLONE_SOURCE).Some? then CLONE_SOURCE else "";
      Selection([FRESH_QUEUE],
                (if x.None? then [Change(AddComplex, SHIM_COMPLEX, NoAttr, "", "", None)] else [])
                + [Change(AddQueue, DEFAULT_QUEUE, NoAttr, src, SHIM_REQUEST, None)])
  }

  function Select(f: Facts, o: Options, starter: string): Selection {
    if o.queues == [ALL_QUEUES] then Selection(f.queues, [])
    else if ALL_QUEUES in o.queues then Selection([], [RefusedRow(ALL_QUEUES, QueueRow, "", "")])
    else if o.queues != []
      then Selection(FlatMap(o.queues, FoundIn(f.queues)), FlatMap(o.queues, MissingIn(f.queues)))
    else if Wired(f.queues, starter) != [] then Selection(Wired(f.queues, starter), [])
    else
      var own := FindQueue(f.queues, DEFAULT_QUEUE);
      if own.Some? then
        if o.createdQueue == DEFAULT_QUEUE then Selection([own.value], [])
        else Selection([], [RefusedRow(DEFAULT_QUEUE, QueueRow, "", "")])
      else FirstInstall(f)
  }

  function OfferChange(q: Queue, pe: string): Change {
    if pe in q.peList then Change(Unchanged, q.name, PEListAttr, pe, pe, None)
    else Change(AddToPEList, q.name, PEListAttr, Join(q.peList, " "), pe, None)
  }

  function StarterChange(q: Queue, starter: string, force: bool): Change {
    if q.starterMethod == starter then Change(Unchanged, q.name, StarterMethod, starter, starter, None)
    else if q.starterMethod == "" then Change(SetStarter, q.name, StarterMethod, "", starter, None)
    else if force then Change(SetStarter, q.name, StarterMethod, q.starterMethod, starter, None)
    else Change(Refused, q.name, StarterMethod, q.starterMethod, starter, None)
  }

  function WireRows(o: Options): Queue -> seq<Change> {
    (q: Queue) => [OfferChange(q, PEName(o)), StarterChange(q, StarterPath(o.prefix), o.force)]
  }

  /** The whole plan of an install. */
  function InstallPlan(f: Facts, o: Options): seq<Change> {
    var s := Select(f, o, StarterPath(o.prefix));
    PEChanges(f, o) + s.changes + FlatMap(s.targets, WireRows(o))
  }

  // ---------- The planner itself ----------

  method ListFixes(have: PE, want: PE) returns (fixes: seq<Fix>)
    ensures fixes == Fixes(have, want)
  {
    fixes := [];
    if have.startProcArgs != want.startProcArgs {
      fixes := fixes + [Fix(StartProcArgs, have.startProcArgs, want.startProcArgs)];
    }
    if !have.controlSlaves {
      fixes := fixes + [Fix(ControlSlaves, "FALSE", "TRUE")];
    }
  }

  method FixOrRefuse(name: string, fixes: seq<Fix>, force: bool) returns (out: seq<Change>)
    ensures out == FlatMap(fixes, FixRow(name, force))
  {
    out := [];
    for i := 0 to |fixes|
      invariant out == FlatMap(fixes[..i], FixRow(name, force))
    {
      FlatMapStep(fixes, i, FixRow(name, force));
      if !force {
        out := out + [Change(Refused, name, fixes[i].attr, fixes[i].was, fixes[i].want, None)];
      } else {
        out := out + [Change(SetPEAttr, name, fixes[i].attr, fixes[i].was, fixes[i].want, None)];
      }
    }
    WholePrefix(fixes);
  }

  method PlanPERepair(have: PE, want: PE, force: bool) returns (out: seq<Change>)
    ensures out == RepairChanges(have, want, force)
  {
    var raise := [];
    if have.name == DEFAULT_PE && have.slots == LEGACY_PE_SLOTS {
      raise := raise + [Change(SetPEAttr, have.name, Slots, LEGACY_SLOTS_TEXT, SLOTS_NO_CAP_TEXT, None)];
    }
    assert raise == RaiseChanges(have);
    var fixes := ListFixes(have, want);
    if |fixes| == 0 {
      if |raise| > 0 {
        return raise;
      }
      return [Change(Unchanged, have.name, StartProcArgs, have.startProcArgs, have.startProcArgs, None)];
    }
    var rows := FixOrRefuse(have.name, fixes, force);
    out := raise + rows;
  }

  method PlanPE(f: Facts, o: Options) returns (out: seq<Change>)
    ensures out == PEChanges(f, o)
  {
    var want := ReferencePE(PEName(o), o.prefix);
    var have := FindPE(f.pes, PEName(o));
    if have.None? {
      return [Change(AddPE, PEName(o), NoAttr, "", want.startProcArgs, Some(want))];
    }
    out := PlanPERepair(have.value, want, o.force);
  }

  /** A plan under construction: the rows so far. */
  class Plan {
    var changes: seq<Change>

    constructor ()
      ensures changes == []
    {
      changes := [];
    }

    /** The queues of --queue; a name the cluster lacks is refused. */
    method SelectNamed(f: Facts, o: Options) returns (targets: seq<Queue>)
      modifies this
      ensures targets == FlatMap(o.queues, FoundIn(f.queues))
      ensures changes == old(changes) + FlatMap(o.queues, MissingIn(f.queues))
    {
      targets := [];
      for i := 0 to |o.queues|
        invariant targets == FlatMap(o.queues[..i], FoundIn(f.queues))
        invariant changes == old(changes) + FlatMap(o.queues[..i], MissingIn(f.queues))
      {
        FlatMapStep(o.queues, i, FoundIn(f.queues));
        FlatMapStep(o.queues, i, MissingIn(f.queues));
        var q := FindQueue(f.queues, o.queues[i]);
        if q.None? {
          changes := changes + [RefusedRow(o.queues[i], QueueRow, "", "")];
        } else {
          targets := targets + [q.value];
        }
      }
      WholePrefix(o.queues);
    }

    method ListWired(f: Facts, starter: string) returns (wired: seq<Queue>)
      ensures wired == Wired(f.queues, starter)
    {
      wired := [];
      for i := 0 to |f.queues|
        invariant wired == Wired(f.queues[..i], starter)
      {
        FlatMapStep(f.queues, i, WiredTo(starter));
        if f.queues[i].starterMethod == starter {
          wired := wired + [f.queues[i]];
        }
      }
      WholePrefix(f.queues);
    }

    /** The rows of a first install: its own queue, and the complex that queue requests. */
    method CreateOwn(f: Facts) returns (targets: seq<Queue>)
      modifies this
      ensures targets == FirstInstall(f).targets
      ensures changes == old(changes) + FirstInstall(f).changes
    {
      var x := FindComplex(f.complexes, SHIM_COMPLEX);
      if x.None? {
        changes := changes + [Change(AddComplex, SHIM_COMPLEX, NoAttr, "", "", None)];
      } else if !EqualFold(x.value.kind, "BOOL") || !EqualFold(x.value.requestable, "FORCED") {
        changes := changes + [RefusedRow(SHIM_COMPLEX, ComplexRow,
                                         x.value.kind + " requestable " + x.value.requestable,
                                         "BOOL requestable FORCED")];
        return [];
      }
      var src := "";
      if FindQueue(f.queues, CLONE_SOURCE).Some? {
        src := CLONE_SOURCE;
      }
      changes := changes + [Change(AddQueue, DEFAULT_QUEUE, NoAttr, src, SHIM_REQUEST, None)];
      return [FRESH_QUEUE];
    }

    method SelectQueues(f: Facts, o: Options, starter: string) returns (targets: seq<Queue>)
      modifies this
      ensures targets == Select(f, o, starter).targets
      ensures changes == old(changes) + Select(f, o, starter).changes
    {
      targets := [];
      if o.queues == [ALL_QUEUES] {
        return f.queues;
      }
      if ALL_QUEUES in o.queues {
        changes := changes + [RefusedRow(ALL_QUEUES, QueueRow, "", "")];
        return;
      }
      if |o.queues| > 0 {
        targets := SelectNamed(f, o);
        return;
      }
      var wired := ListWired(f, starter);
      if |wired| > 0 {
        return wired;
      }
      var own := FindQueue(f.queues, DEFAULT_QUEUE);
      if own.Some? {
        if o.createdQueue == DEFAULT_QUEUE {
          return [own.value];
        }
        changes := changes + [RefusedRow(DEFAULT_QUEUE, QueueRow, "", "")];
        return;
      }
      targets := CreateOwn(f);
    }

    method WireQueue(q: Queue, peName: string, starter: string, force: bool)
      modifies this
      ensures changes == old(changes) + [OfferChange(q, peName), StarterChange(q, starter, force)]
    {
      if peName !in q.peList {
        changes := changes + [Change(AddToPEList, q.name, PEListAttr, Join(q.peList, " "), peName, None)];
      } else {
        changes := changes + [Change(Unchanged, q.name, PEListAttr, peName, peName, None)];
      }
      assert changes == old(changes) + [OfferChange(q, peName)];
      if q.starterMethod == starter {
        changes := changes + [Change(Unchanged, q.name, StarterMethod, starter, starter, None)];
      } else if q.starterMethod == "" {
        changes := changes + [Change(SetStarter, q.name, StarterMethod, "", starter, None)];
      } else if force {
        changes := changes + [Change(SetStarter, q.name, StarterMethod, q.starterMethod, starter, None)];
      } else {
        changes := changes + [Change(Refused, q.name, StarterMethod, q.starterMethod, starter, None)];
      }
    }
  }

  method MakePlan(f: Facts, o: Options) returns (p: Plan)
    ensures fresh(p)
    ensures p.changes == InstallPlan(f, o)
  {
    var starter := StarterPath(o.prefix);
    p := new Plan();
    p.changes := PlanPE(f, o);
    var targets := p.SelectQueues(f, o, starter);
    ghost var before := p.changes;
    for i := 0 to |targets|
      invariant p.changes == before + FlatMap(targets[..i], WireRows(o))
    {
      FlatMapStep(targets, i, WireRows(o));
      p.WireQueue(targets[i], PEName(o), starter, o.force);
    }
    WholePrefix(targets);
  }
}
