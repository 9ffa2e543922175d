/**
 The convergence theorems of the installer, over every cluster, every set of
 options and every set of failed calls.
 */
module InstallConverges {
  import opened Text
  import opened Sequences
  import opened Scheduler
  import opened Planner
  import opened InstallRecord
  import opened InstallGoal

  // ---------- An uninterrupted run reaches the goal ----------

  /** d has what the row ch is for. */
  ghost predicate Achieved(a: Aim, d: Cluster, ch: Change) {
    match ch.kind
    case AddPE => a.pe in d.pes
    case SetPEAttr =>
      && a.pe in d.pes
      && (match ch.attr
          case Slots => d.pes[a.pe].slots == a.goalPE.slots
          case StartProcArgs => d.pes[a.pe].startProcArgs == a.goalPE.startProcArgs
          case _ => d.pes[a.pe].controlSlaves == a.goalPE.controlSlaves)
    case AddToPEList =>
      && ch.target in d.queues && ch.target in a.base
      && d.queues[ch.target].peList == Including(a.base[ch.target].peList, a.pe)
    case SetStarter => ch.target in d.queues && d.queues[ch.target].starterMethod == a.starter
    case AddComplex => SHIM_COMPLEX in d.complexes
    case AddQueue => ch.target in d.queues
    case _ => true
  }

  predicate SteadyKind(k: ChangeKind) {
    k == SetPEAttr || k == AddToPEList || k == SetStarter || k == Refused || k == Unchanged
  }

  /** The scheduler's precondition of a row that creates nothing. */
  ghost predicate Ready(a: Aim, d: Cluster, ch: Change) {
    match ch.kind
    case SetPEAttr => a.pe in d.pes
    case AddToPEList => ch.target in d.queues && a.pe in d.pes
    case SetStarter => ch.target in d.queues
    case _ => true
  }

  lemma ReadySucceeds(c: Cluster, d: Cluster, a: Aim, ch: Change)
    requires Between(c, d, a) && Planned(c, a, ch) && SteadyKind(ch.kind) && Ready(a, d, ch)
    ensures Succeeds(d, ch, false) && Achieved(a, Next(d, ch, false), ch)
    ensures var d' := Next(d, ch, false);
      d'.queues.Keys == d.queues.Keys && d'.pes.Keys == d.pes.Keys && d'.complexes == d.complexes
  {
    if ch.kind == SetPEAttr {
      AttrWrite(c.pes[a.pe], a.goalPE, ch, d.pes[a.pe]);
    }
  }

  lemma AchievedStays(c: Cluster, d: Cluster, a: Aim, ch: Change, x: Change)
    requires Between(c, d, a) && Planned(c, a, ch) && SteadyKind(ch.kind) && Planned(c, a, x)
    requires Achieved(a, d, x)
    ensures Achieved(a, Next(d, ch, false), x)
  {
    if Succeeds(d, ch, false) {
      if ch.kind == SetPEAttr {
        AttrKeepsAchieved(c, d, a, ch, x);
      } else {
        WireKeepsAchieved(c, d, a, ch, x);
      }
    }
  }

  lemma {:induction false} AttrKeepsAchieved(c: Cluster, d: Cluster, a: Aim, ch: Change, x: Change)
    requires Between(c, d, a) && Planned(c, a, ch) && Achieved(a, d, x)
    requires ch.kind == SetPEAttr && Succeeds(d, ch, false)
    ensures Achieved(a, Next(d, ch, false), x)
  {
    AttrWrite(c.pes[a.pe], a.goalPE, ch, d.pes[a.pe]);
  }

  lemma WireKeepsAchieved(c: Cluster, d: Cluster, a: Aim, ch: Change, x: Change)
    requires Between(c, d, a) && Planned(c, a, ch) && Planned(c, a, x) && Achieved(a, d, x)
    requires SteadyKind(ch.kind) && ch.kind != SetPEAttr && Succeeds(d, ch, false)
    ensures Achieved(a, Next(d, ch, false), x)
  {
  }

  lemma {:induction false} RunKeeps(c: Cluster, d: Cluster, a: Aim, rows: seq<Change>, x: Change)
    requires AimNamed(a) && Between(c, d, a) && AllPlanned(c, a, rows) && Planned(c, a, x)
    requires forall ch | ch in rows :: SteadyKind(ch.kind)
    requires Achieved(a, d, x)
    ensures Achieved(a, After(d, rows), x)
    decreases |rows|
  {
    if rows != [] {
      assert rows[0] in rows;
      AchievedStays(c, d, a, rows[0], x);
      StepStaysBetween(c, d, a, rows[0], false);
      RunKeeps(c, Next(d, rows[0], false), a, rows[1..], x);
    }
  }

  lemma {:induction false} RunSteady(c: Cluster, d: Cluster, a: Aim, rows: seq<Change>)
    requires AimNamed(a) && Between(c, d, a) && AllPlanned(c, a, rows)
    requires forall ch | ch in rows :: SteadyKind(ch.kind) && Ready(a, d, ch)
    ensures Applies(d, rows)
    ensures forall ch | ch in rows :: Achieved(a, After(d, rows), ch)
    ensures var d' := After(d, rows);
      d'.queues.Keys == d.queues.Keys && d'.pes.Keys == d.pes.Keys && d'.complexes == d.complexes
    decreases |rows|
  {
    if rows != [] {
      assert rows[0] in rows;
      var d' := Next(d, rows[0], false);
      ReadySucceeds(c, d, a, rows[0]);
      StepStaysBetween(c, d, a, rows[0], false);
      RunSteady(c, d', a, rows[1..]);
      RunKeeps(c, d', a, rows[1..], rows[0]);
      forall ch | ch in rows
        ensures Achieved(a, After(d, rows), ch)
      {
        assert ch == rows[0] || ch in rows[1..];
      }
    }
  }

  lemma {:induction false} IdleRows(d: Cluster, rows: seq<Change>)
    requires forall ch | ch in rows :: !Mutating(ch.kind)
    ensures After(d, rows) == d && Applies(d, rows)
    decreases |rows|
  {
    if rows != [] {
      assert rows[0] in rows;
      IdleRows(d, rows[1..]);
    }
  }

  lemma PEStageDone(have: PE, want: PE, a: Aim, d: Cluster)
    requires a.goalPE == Repaired(have, want, a.force) && want.controlSlaves
    requires a.pe in d.pes && PartlyRepaired(have, a.goalPE, d.pes[a.pe])
    requires forall ch | ch in RepairChanges(have, want, a.force) :: Achieved(a, d, ch)
    ensures d.pes[a.pe] == a.goalPE
  {
    var fixes := Fixes(have, want);
    var rows := RepairChanges(have, want, a.force);
    FlatMapMembers(fixes, FixRow(have.name, a.force));
    if have.name == DEFAULT_PE && have.slots == LEGACY_PE_SLOTS {
      var r := Change(SetPEAttr, have.name, Slots, LEGACY_SLOTS_TEXT, SLOTS_NO_CAP_TEXT, None);
      assert r in RaiseChanges(have) && r in rows;
      assert Achieved(a, d, r);
    }
    if a.force && have.startProcArgs != want.startProcArgs {
      var x := Fix(StartProcArgs, have.startProcArgs, want.startProcArgs);
      assert x in fixes && FixChange(have.name, x, true) in FixRow(have.name, a.force)(x);
      assert Achieved(a, d, FixChange(have.name, x, true));
    }
    if a.force && !have.controlSlaves {
      var x := Fix(ControlSlaves, "FALSE", "TRUE");
      assert fixes[|fixes| - 1] == x;
      assert x in fixes && FixChange(have.name, x, true) in FixRow(have.name, a.force)(x);
      assert Achieved(a, d, FixChange(have.name, x, true));
    }
  }

  lemma RepairStage(c: Cluster, a: Aim, want: PE)
    requires AimNamed(a) && Between(c, c, a) && a.pe in c.pes && c.pes[a.pe].name == a.pe
    requires a.goalPE == Repaired(c.pes[a.pe], want, a.force)
    requires want.controlSlaves && want.startProcArgs != ""
    ensures var rows := RepairChanges(c.pes[a.pe], want, a.force);
      Applies(c, rows) && After(c, rows) == c.(pes := c.pes[a.pe := a.goalPE])
  {
    var rows := RepairChanges(c.pes[a.pe], want, a.force);
    RepairPlanned(c, a, want);
    RepairSteady(c.pes[a.pe], want, a.force);
    RunSteady(c, c, a, rows);
    RunStaysBetween(c, c, a, rows, []);
    PEStageDone(c.pes[a.pe], want, a, After(c, rows));
    SameQueues(c, rows);
    OnlyPEChanged(c, a, After(c, rows));
  }

  lemma OnlyPEChanged(c: Cluster, a: Aim, d: Cluster)
    requires PEsBetween(c, d, a) && a.pe in c.pes && d.pes[a.pe] == a.goalPE
    ensures d.pes == c.pes[a.pe := a.goalPE]
  {
  }

  lemma AddPERuns(c: Cluster, pe: PE, next: string)
    requires pe.name !in c.pes
    ensures var rows := [Change(AddPE, pe.name, NoAttr, "", next, Some(pe))];
      Applies(c, rows) && After(c, rows) == c.(pes := c.pes[pe.name := pe])
  {
    var rows := [Change(AddPE, pe.name, NoAttr, "", next, Some(pe))];
    assert rows[1..] == [];
  }

  lemma PEStage(f: Facts, c: Cluster, o: Options)
    requires Named(c) && Lists(f, c)
    ensures Applies(c, PEChanges(f, o))
    ensures After(c, PEChanges(f, o)) == c.(pes := c.pes[PEName(o) := GoalPE(c, o)])
  {
    Reading(f, c, PEName(o));
    var want := ReferencePE(PEName(o), o.prefix);
    if PEName(o) in c.pes {
      StartIsBetween(c, o);
      RepairStage(c, AimOf(c, o), want);
    } else {
      AddPERuns(c, want, want.startProcArgs);
    }
  }

  lemma RepairSteady(have: PE, want: PE, force: bool)
    ensures forall ch | ch in RepairChanges(have, want, force) ::
      ch.kind == SetPEAttr || ch.kind == Refused || ch.kind == Unchanged
  {
    FlatMapMembers(Fixes(have, want), FixRow(have.name, force));
  }

  lemma {:induction false} SameQueues(d: Cluster, rows: seq<Change>)
    requires forall ch | ch in rows :: ch.kind == SetPEAttr || ch.kind == Refused || ch.kind == Unchanged
    ensures After(d, rows).queues == d.queues
    decreases |rows|
  {
    if rows != [] {
      assert rows[0] in rows;
      SameQueues(Next(d, rows[0], false), rows[1..]);
    }
  }

  /** The rows of a first install put its own queue in place. */
  lemma FirstStage(f: Facts, c: Cluster, o: Options, d: Cluster)
    requires Named(c) && Lists(f, c) && Creates(c, o)
    requires d.queues == c.queues && d.complexes == c.complexes
    ensures var rows := FirstInstall(f).changes;
      Applies(d, rows) && After(d, rows) == d.(queues := Base(c, o), complexes := GoalComplexes(c, o))
  {
    FirstRows(f, c, o);
    CreatedBase(c, o);
    RequestNamesComplex();
    FreshQueueRuns(d, c, AddQueueRow(c), FirstInstall(f).changes, Base(c, o), GoalComplexes(c, o));
  }

  lemma CreatedBase(c: Cluster, o: Options)
    requires Creates(c, o)
    ensures DEFAULT_QUEUE !in c.queues && (CloneSource(c) == "" || CloneSource(c) in c.queues)
    ensures Base(c, o) == c.queues[DEFAULT_QUEUE := Clone(c, CloneSource(c), DEFAULT_QUEUE, SHIM_REQUEST)]
    ensures GoalComplexes(c, o) == WithComplex(c.complexes)
  {
  }

  function WithComplex(complexes: map<string, Complex>): map<string, Complex> {
    if SHIM_COMPLEX in complexes then complexes else complexes[SHIM_COMPLEX := Complex(SHIM_COMPLEX, "BOOL", "FORCED")]
  }

  lemma FreshQueueRuns(d: Cluster, c: Cluster, row: Change, rows: seq<Change>, base: map<string, Queue>,
                       complexes: map<string, Complex>)
    requires rows == (if SHIM_COMPLEX in c.complexes then [] else [ADD_COMPLEX_ROW]) + [row]
    requires d.queues == c.queues && d.complexes == c.complexes
    requires row.kind == AddQueue && row.target !in c.queues && (row.prev == "" || row.prev in c.queues)
    requires ComplexName(row.next) == SHIM_COMPLEX
    requires base == c.queues[row.target := Clone(c, row.prev, row.target, row.next)]
      && complexes == WithComplex(c.complexes)
    ensures Applies(d, rows) && After(d, rows) == d.(queues := base, complexes := complexes)
  {
    if SHIM_COMPLEX in c.complexes {
      assert rows == [row];
      AddQueueRuns(d, c, row);
    } else {
      AddBothRun(d, c, row);
    }
  }

  /** The rows that choose the queues leave their base in place. */
  lemma CreateStage(f: Facts, c: Cluster, o: Options, d: Cluster)
    requires Named(c) && Lists(f, c)
    requires d.queues == c.queues && d.complexes == c.complexes
    ensures var rows := Select(f, o, StarterPath(o.prefix)).changes;
      Applies(d, rows) && After(d, rows) == d.(queues := Base(c, o), complexes := GoalComplexes(c, o))
  {
    SelectionIsTargets(f, c, o);
    if Creates(c, o) {
      FirstStage(f, c, o, d);
    } else {
      IdleRows(d, Select(f, o, StarterPath(o.prefix)).changes);
    }
  }

  lemma AddComplexRuns(d: Cluster)
    requires SHIM_COMPLEX !in d.complexes
    ensures Applies(d, [ADD_COMPLEX_ROW])
    ensures After(d, [ADD_COMPLEX_ROW])
         == d.(complexes := d.complexes[SHIM_COMPLEX := Complex(SHIM_COMPLEX, "BOOL", "FORCED")])
  {
    assert [ADD_COMPLEX_ROW][1..] == [];
  }

  lemma AddQueueRuns(d: Cluster, c: Cluster, row: Change)
    requires row.kind == AddQueue && row.target !in d.queues && d.queues == c.queues
    requires row.prev == "" || row.prev in c.queues
    requires ComplexName(row.next) in d.complexes
    ensures Applies(d, [row])
    ensures After(d, [row]) == d.(queues := c.queues[row.target := Clone(c, row.prev, row.target, row.next)])
  {
    assert [row][1..] == [];
    assert Clone(d, row.prev, row.target, row.next) == Clone(c, row.prev, row.target, row.next);
  }

  lemma AddBothRun(d: Cluster, c: Cluster, row: Change)
    requires SHIM_COMPLEX !in d.complexes
    requires row.kind == AddQueue && row.target !in d.queues && d.queues == c.queues
    requires row.prev == "" || row.prev in c.queues
    requires ComplexName(row.next) == SHIM_COMPLEX
    ensures Applies(d, [ADD_COMPLEX_ROW] + [row])
    ensures After(d, [ADD_COMPLEX_ROW] + [row])
         == d.(queues := c.queues[row.target := Clone(c, row.prev, row.target, row.next)],
               complexes := d.complexes[SHIM_COMPLEX := Complex(SHIM_COMPLEX, "BOOL", "FORCED")])
  {
    AddComplexRuns(d);
    AddQueueRuns(After(d, [ADD_COMPLEX_ROW]), c, row);
    AfterConcat(d, [ADD_COMPLEX_ROW], [row]);
  }

  lemma QueueDone(c: Cluster, a: Aim, d: Cluster, q: Queue)
    requires Between(c, d, a) && Shows(q, a.base) && q.name in d.queues
    requires Achieved(a, d, OfferChange(q, a.pe))
    requires Achieved(a, d, StarterChange(q, a.starter, a.force))
    ensures d.queues[q.name] == Wire(a.base[q.name], a)
  {
  }

  lemma {:induction false} WireRowsReady(o: Options, a: Aim, qs: seq<Queue>, d: Cluster)
    requires a.pe == PEName(o) && a.pe in d.pes
    requires forall q | q in qs :: q.name in d.queues
    ensures forall ch | ch in FlatMap(qs, WireRows(o)) :: SteadyKind(ch.kind) && Ready(a, d, ch)
  {
    FlatMapMembers(qs, WireRows(o));
    forall q, ch | q in qs && ch in WireRows(o)(q)
      ensures SteadyKind(ch.kind) && Ready(a, d, ch)
    {
      assert ch == OfferChange(q, a.pe) || ch == StarterChange(q, StarterPath(o.prefix), o.force);
    }
  }

  lemma TargetsDone(c: Cluster, o: Options, a: Aim, qs: seq<Queue>, d: Cluster)
    requires a.pe == PEName(o) && a.starter == StarterPath(o.prefix) && a.force == o.force
    requires Between(c, d, a) && NameSet(qs) == a.targets
    requires forall q | q in qs :: Shows(q, a.base) && q.name in d.queues
    requires forall ch | ch in FlatMap(qs, WireRows(o)) :: Achieved(a, d, ch)
    ensures forall n | n in a.targets :: n in d.queues && n in a.base && d.queues[n] == Wire(a.base[n], a)
  {
    FlatMapMembers(qs, WireRows(o));
    forall n | n in a.targets
      ensures n in d.queues && n in a.base && d.queues[n] == Wire(a.base[n], a)
    {
      var q :| q in qs && q.name == n;
      var rows := WireRows(o)(q);
      assert rows[0] == OfferChange(q, a.pe) && rows[1] == StarterChange(q, a.starter, a.force);
      assert rows[0] in rows && rows[1] in rows;
      QueueDone(c, a, d, q);
    }
  }

  lemma WireStage(c: Cluster, o: Options, a: Aim, qs: seq<Queue>, d: Cluster)
    requires a.pe == PEName(o) && a.starter == StarterPath(o.prefix) && a.force == o.force
    requires AimNamed(a) && Between(c, d, a)
    requires forall q | q in qs :: Shows(q, a.base)
    requires NameSet(qs) == a.targets
    requires d.queues == a.base && a.pe in d.pes
    ensures Applies(d, FlatMap(qs, WireRows(o)))
    ensures After(d, FlatMap(qs, WireRows(o))).queues == GoalQueues(a)
  {
    var rows := FlatMap(qs, WireRows(o));
    assert forall q | q in qs :: q.name in NameSet(qs);
    WireRowsPlanned(c, o, a, qs);
    WireRowsReady(o, a, qs, d);
    RunSteady(c, d, a, rows);
    RunStaysBetween(c, d, a, rows, []);
    TargetsDone(c, o, a, qs, After(d, rows));
    AllWired(c, a, After(d, rows));
  }

  lemma AllWired(c: Cluster, a: Aim, d: Cluster)
    requires QueuesBetween(c, d, a) && d.queues.Keys == a.base.Keys
    requires forall n | n in a.targets :: n in d.queues && n in a.base && d.queues[n] == Wire(a.base[n], a)
    ensures d.queues == GoalQueues(a)
  {
  }

  lemma {:induction false} SamePEs(d: Cluster, rows: seq<Change>)
    requires forall ch | ch in rows :: ch.kind == AddToPEList || ch.kind == SetStarter || !Mutating(ch.kind)
    ensures After(d, rows).pes == d.pes && After(d, rows).complexes == d.complexes
    decreases |rows|
  {
    if rows != [] {
      assert rows[0] in rows;
      SamePEs(Next(d, rows[0], false), rows[1..]);
    }
  }

  lemma {:induction false} WireKinds(qs: seq<Queue>, o: Options)
    ensures forall ch | ch in FlatMap(qs, WireRows(o)) ::
      ch.kind == AddToPEList || ch.kind == SetStarter || !Mutating(ch.kind)
  {
    FlatMapMembers(qs, WireRows(o));
    forall q, ch | q in qs && ch in WireRows(o)(q)
      ensures ch.kind == AddToPEList || ch.kind == SetStarter || !Mutating(ch.kind)
    {
      assert ch == OfferChange(q, PEName(o)) || ch == StarterChange(q, StarterPath(o.prefix), o.force);
    }
  }

  /** No call of an uninterrupted run is rejected, and it reaches the goal. */
  lemma FullRun(f: Facts, c: Cluster, o: Options)
    requires Named(c) && Lists(f, c)
    ensures Applies(c, InstallPlan(f, o))
    ensures After(c, InstallPlan(f, o)) == Goal(c, o)
  {
    var a := AimOf(c, o);
    var s := Select(f, o, StarterPath(o.prefix));
    var p, w := PEChanges(f, o), FlatMap(s.targets, WireRows(o));
    var d1 := c.(pes := c.pes[a.pe := a.goalPE]);
    var d2 := d1.(queues := a.base, complexes := a.complexes);
    PEStage(f, c, o);
    CreateStage(f, c, o, d1);
    SelectionIsTargets(f, c, o);
    StartIsBetween(c, o);
    CreatedIsBetween(c, o, d2);
    WireStage(c, o, a, s.targets, d2);
    WireKinds(s.targets, o);
    SamePEs(d2, w);
    AfterConcat(c, p, s.changes);
    AfterConcat(c, p + s.changes, w);
  }

  lemma CreatedIsBetween(c: Cluster, o: Options, d: Cluster)
    requires Named(c)
    requires var a := AimOf(c, o); d == Cluster(a.base, c.pes[a.pe := a.goalPE], a.complexes)
    ensures Between(c, d, AimOf(c, o))
  {
  }

  // ---------- Anything between a start and its goal has the same goal ----------

  lemma WireOfPartly(base: Queue, q: Queue, a: Aim)
    requires PartlyWired(base, q, a)
    ensures Wire(q, a) == Wire(base, a)
  {
  }

  lemma RepairOfPartly(base: PE, want: PE, force: bool, p: PE)
    requires PartlyRepaired(base, Repaired(base, want, force), p)
    ensures Repaired(p, want, force) == Repaired(base, want, force)
  {
  }

  /** The options of a re-run: the same, with the recorded queue. */
  function Rerun(o: Options, st: Record): Options {
    o.(createdQueue := st.createdQueue)
  }

  ghost predicate RerunOf(c: Cluster, o: Options, o2: Options) {
    o2 == o.(createdQueue := if Creates(c, o) then DEFAULT_QUEUE else o.createdQueue)
  }

  lemma WiredSetBetween(c: Cluster, d: Cluster, a: Aim)
    requires QueuesBetween(c, d, a)
    ensures forall n | n in d.queues && n !in a.targets ::
      n in WiredSet(d, a.starter) <==> a.base[n].starterMethod == a.starter
    ensures forall n | n in d.queues && a.base[n].starterMethod == a.starter :: n in WiredSet(d, a.starter)
  {
  }

  ghost predicate SameChoice(c: Cluster, o: Options, d: Cluster, o2: Options) {
    && Targets(d, o2) == Targets(c, o)
    && (Creates(d, o2) <==> Creates(c, o) && DEFAULT_QUEUE !in d.queues)
  }

  lemma SameChoiceWired(c: Cluster, d: Cluster, o: Options, o2: Options)
    requires Between(c, d, AimOf(c, o)) && RerunOf(c, o, o2)
    requires o.queues == [] && WiredSet(c, StarterPath(o.prefix)) != {}
    ensures SameChoice(c, o, d, o2)
  {
    WiredSetBetween(c, d, AimOf(c, o));
    assert WiredSet(d, StarterPath(o.prefix)) == WiredSet(c, StarterPath(o.prefix));
  }

  lemma SameChoiceOwn(c: Cluster, d: Cluster, o: Options, o2: Options)
    requires Between(c, d, AimOf(c, o)) && RerunOf(c, o, o2)
    requires o.queues == [] && WiredSet(c, StarterPath(o.prefix)) == {}
    requires DEFAULT_QUEUE in c.queues || !Creates(c, o)
    ensures SameChoice(c, o, d, o2)
  {
    WiredSetBetween(c, d, AimOf(c, o));
    assert forall n | n in c.queues :: n !in WiredSet(c, StarterPath(o.prefix));
    assert WiredSet(d, StarterPath(o.prefix)) <= Targets(c, o);
    if Targets(c, o) == {DEFAULT_QUEUE} {
      assert WiredSet(d, StarterPath(o.prefix)) == {} || WiredSet(d, StarterPath(o.prefix)) == {DEFAULT_QUEUE};
    }
  }

  lemma SameChoiceFirst(c: Cluster, d: Cluster, o: Options, o2: Options)
    requires Between(c, d, AimOf(c, o)) && RerunOf(c, o, o2)
    requires Creates(c, o)
    ensures SameChoice(c, o, d, o2)
  {
    WiredSetBetween(c, d, AimOf(c, o));
    assert forall n | n in c.queues :: n !in WiredSet(c, StarterPath(o.prefix));
    assert WiredSet(d, StarterPath(o.prefix)) <= {DEFAULT_QUEUE};
    assert WiredSet(d, StarterPath(o.prefix)) == {} || WiredSet(d, StarterPath(o.prefix)) == {DEFAULT_QUEUE};
    if SHIM_COMPLEX in d.complexes {
      assert RightComplex(d.complexes[SHIM_COMPLEX]);
    }
  }

  lemma ChoiceIsStable(c: Cluster, d: Cluster, o: Options, o2: Options)
    requires Between(c, d, AimOf(c, o)) && RerunOf(c, o, o2)
    ensures SameChoice(c, o, d, o2)
  {
    if o.queues == [] {
      if WiredSet(c, StarterPath(o.prefix)) != {} {
        SameChoiceWired(c, d, o, o2);
      } else if Creates(c, o) {
        SameChoiceFirst(c, d, o, o2);
      } else {
        SameChoiceOwn(c, d, o, o2);
      }
    }
  }

  lemma {:induction false} BaseIsStable(c: Cluster, d: Cluster, o: Options, o2: Options)
    requires Between(c, d, AimOf(c, o)) && RerunOf(c, o, o2) && SameChoice(c, o, d, o2)
    ensures Base(d, o2).Keys == Base(c, o).Keys
    ensures forall n | n in Base(c, o) ::
      PartlyWired(Base(c, o)[n], Base(d, o2)[n], AimOf(c, o))
      && (n !in Targets(c, o) ==> Base(d, o2)[n] == Base(c, o)[n])
  {
    if Creates(c, o) && DEFAULT_QUEUE !in d.queues {
      assert CLONE_SOURCE != DEFAULT_QUEUE by { assert CLONE_SOURCE[0] != DEFAULT_QUEUE[0]; }
      assert CloneSource(d) == CloneSource(c);
      assert Clone(d, CloneSource(d), DEFAULT_QUEUE, SHIM_REQUEST) == Clone(c, CloneSource(c), DEFAULT_QUEUE,
                                                                            SHIM_REQUEST);
    }
  }

  lemma {:induction false} ObjectsAreStable(c: Cluster, d: Cluster, o: Options, o2: Options)
    requires Named(c) && Between(c, d, AimOf(c, o)) && RerunOf(c, o, o2) && SameChoice(c, o, d, o2)
    ensures GoalPE(d, o2) == GoalPE(c, o)
    ensures d.pes[PEName(o) := GoalPE(c, o)] == c.pes[PEName(o) := GoalPE(c, o)]
    ensures GoalComplexes(d, o2) == GoalComplexes(c, o)
  {
    if PEName(o) in c.pes {
      RepairOfPartly(c.pes[PEName(o)], ReferencePE(PEName(o), o.prefix), o.force, d.pes[PEName(o)]);
    }
  }

  /** An interrupted run has not moved the goal. */
  lemma GoalIsStable(c: Cluster, d: Cluster, o: Options, o2: Options)
    requires Named(c) && Between(c, d, AimOf(c, o)) && RerunOf(c, o, o2)
    ensures Goal(d, o2) == Goal(c, o)
  {
    ChoiceIsStable(c, d, o, o2);
    BaseIsStable(c, d, o, o2);
    ObjectsAreStable(c, d, o, o2);
    SameGoalQueues(AimOf(c, o), AimOf(d, o2));
  }

  lemma SameGoalQueues(a: Aim, b: Aim)
    requires a.targets == b.targets && a.pe == b.pe && a.starter == b.starter && a.force == b.force
    requires a.base.Keys == b.base.Keys
    requires forall n | n in a.base ::
      PartlyWired(a.base[n], b.base[n], a) && (n !in a.targets ==> b.base[n] == a.base[n])
    ensures GoalQueues(a) == GoalQueues(b)
  {
    forall n | n in a.base
      ensures GoalQueues(a)[n] == GoalQueues(b)[n]
    {
      WireOfPartly(a.base[n], b.base[n], a);
      assert Wire(b.base[n], a) == Wire(b.base[n], b);
    }
  }

  // ---------- When a plan changes nothing ----------

  lemma CreatedIsThere(c: Cluster, o: Options)
    ensures Creates(c, o) ==> DEFAULT_QUEUE in GoalQueues(AimOf(c, o)) && DEFAULT_QUEUE !in c.queues
  {
  }

  lemma GoalHasQueues(a: Aim, q: string)
    ensures q in a.targets && q in a.base ==> q in GoalQueues(a) && GoalQueues(a)[q] == Wire(a.base[q], a)
  {
  }

  lemma MutatingRowMoves(c: Cluster, o: Options, a: Aim, ch: Change)
    requires a == AimOf(c, o) && Planned(c, a, ch) && InstallKind(ch.kind) && Mutating(ch.kind)
    ensures GoalOf(c, a) != c
  {
    if GoalOf(c, a) == c {
      CreatedIsThere(c, o);
      GoalHasQueues(a, ch.target);
    }
  }

  /** A plan has nothing left to do exactly when the cluster is its own goal. */
  lemma QuietAtGoal(f: Facts, c: Cluster, o: Options)
    requires Named(c) && Lists(f, c)
    ensures !MutatingPlan(InstallPlan(f, o)) <==> Goal(c, o) == c
  {
    var plan := InstallPlan(f, o);
    FullRun(f, c, o);
    PlanIsPlanned(f, c, o);
    if MutatingPlan(plan) {
      var i :| 0 <= i < |plan| && Mutating(plan[i].kind);
      assert plan[i] in plan;
      MutatingRowMoves(c, o, AimOf(c, o), plan[i]);
    } else {
      forall ch | ch in plan
        ensures !Mutating(ch.kind)
      {
        var i :| 0 <= i < |plan| && plan[i] == ch;
      }
      IdleRows(c, plan);
    }
  }

  // ---------- What the record says about the queue of an interrupted run ----------

  lemma {:induction false} IntendsQueue(st: Record, rows: seq<Change>, name: string)
    requires forall ch | ch in rows && ch.kind == AddQueue :: ch.target == name
    ensures Intend(st, rows).createdQueue
         == if exists ch :: ch in rows && ch.kind == AddQueue then name else st.createdQueue
    decreases |rows|
  {
    if rows != [] {
      assert rows[0] in rows;
      assert forall ch :: ch in rows <==> ch == rows[0] || ch in rows[1..];
      IntendsQueue(IntendOne(st, rows[0]), rows[1..], name);
    }
  }

  lemma {:induction false} RecordsQueue(st: Record, outs: seq<Outcome>, name: string)
    requires forall x | x in outs && x.change.kind == AddQueue :: x.change.target == name
    ensures RecordAll(st, outs).createdQueue == name || RecordAll(st, outs).createdQueue == st.createdQueue
    ensures (forall x | x in outs :: x.change.kind != AddQueue) ==> RecordAll(st, outs).createdQueue == st.createdQueue
    decreases |outs|
  {
    if outs != [] {
      assert outs[0] in outs;
      assert forall x :: x in outs <==> x == outs[0] || x in outs[1..];
      RecordsQueue(RecordOne(st, outs[0]), outs[1..], name);
    }
  }

  lemma {:induction false} OutcomeChanges(c: Cluster, rows: seq<Change>, fails: seq<bool>)
    ensures forall x | x in Outcomes(c, rows, fails) :: x.change in rows
    decreases |rows|
  {
    if rows != [] {
      OutcomeChanges(Next(c, rows[0], Head(fails)), rows[1..], Tail(fails));
      assert forall ch :: ch in rows <==> ch == rows[0] || ch in rows[1..];
    }
  }

  /** The record after a run, whether or not it got to recording the report. */
  function RecordAfter(st: Record, c: Cluster, plan: seq<Change>, fails: seq<bool>, recorded: bool): Record {
    if recorded then RecordAll(Intend(st, plan), Outcomes(c, plan, fails)) else Intend(st, plan)
  }

  lemma RecordNamesQueue(f: Facts, c: Cluster, o: Options, st: Record, fails: seq<bool>, recorded: bool)
    requires Named(c) && Lists(f, c) && st.createdQueue == o.createdQueue
    ensures RerunOf(c, o, Rerun(o, RecordAfter(st, c, InstallPlan(f, o), fails, recorded)))
  {
    var plan := InstallPlan(f, o);
    PlanIsPlanned(f, c, o);
    var name := if Creates(c, o) then DEFAULT_QUEUE else "";
    forall ch | ch in plan && ch.kind == AddQueue
      ensures Creates(c, o) && ch.target == DEFAULT_QUEUE
    {
      assert Planned(c, AimOf(c, o), ch);
    }
    if Creates(c, o) {
      SelectionIsTargets(f, c, o);
      FirstRows(f, c, o);
      assert AddQueueRow(c) in FirstInstall(f).changes;
      assert AddQueueRow(c) in plan;
    }
    IntendsQueue(st, plan, name);
    OutcomeChanges(c, plan, fails);
    RecordsQueue(Intend(st, plan), Outcomes(c, plan, fails), name);
  }

  // ---------- The theorems ----------

  /** However a run is interrupted -- any calls failing, the report recorded or
      not -- running it again with the same options and the record it left is not
      rejected and reaches exactly what an uninterrupted run reaches. */
  lemma RerunConverges(f: Facts, c: Cluster, o: Options, st: Record, fails: seq<bool>, recorded: bool, f2: Facts)
    requires Named(c) && Lists(f, c) && st.createdQueue == o.createdQueue
    requires Lists(f2, After(c, InstallPlan(f, o), fails))
    ensures var plan := InstallPlan(f, o);
      var d := After(c, plan, fails);
      var again := InstallPlan(f2, Rerun(o, RecordAfter(st, c, plan, fails, recorded)));
      Applies(d, again) && After(d, again) == After(c, plan)
  {
    var a, plan := AimOf(c, o), InstallPlan(f, o);
    var d := After(c, plan, fails);
    StartIsBetween(c, o);
    PlanIsPlanned(f, c, o);
    RunStaysBetween(c, c, a, plan, fails);
    BetweenIsNamed(c, d, a);
    RecordNamesQueue(f, c, o, st, fails, recorded);
    var o2 := Rerun(o, RecordAfter(st, c, plan, fails, recorded));
    GoalIsStable(c, d, o, o2);
    FullRun(f, c, o);
    FullRun(f2, d, o2);
  }

  /** After an uninterrupted run the next plan has nothing to do. */
  lemma NextPlanIsQuiet(f: Facts, c: Cluster, o: Options, st: Record, recorded: bool, f2: Facts)
    requires Named(c) && Lists(f, c) && st.createdQueue == o.createdQueue
    requires Lists(f2, After(c, InstallPlan(f, o)))
    ensures !MutatingPlan(InstallPlan(f2, Rerun(o, RecordAfter(st, c, InstallPlan(f, o), [], recorded))))
  {
    var a, plan := AimOf(c, o), InstallPlan(f, o);
    var d := After(c, plan);
    var o2 := Rerun(o, RecordAfter(st, c, plan, [], recorded));
    StartIsBetween(c, o);
    PlanIsPlanned(f, c, o);
    RunStaysBetween(c, c, a, plan, []);
    BetweenIsNamed(c, d, a);
    RecordNamesQueue(f, c, o, st, [], recorded);
    GoalIsStable(c, d, o, o2);
    FullRun(f, c, o);
    QuietAtGoal(f2, d, o2);
  }

  /** A cluster and what installs have recorded about it. */
  datatype Site = Site(cluster: Cluster, record: Record)

  /** One run that may be interrupted. */
  datatype Round = Round(fails: seq<bool>, recorded: bool)

  function RunOnce(s: Site, o: Options, discover: Cluster -> Facts, r: Round): Site {
    var plan := InstallPlan(discover(s.cluster), Rerun(o, s.record));
    Site(After(s.cluster, plan, r.fails), RecordAfter(s.record, s.cluster, plan, r.fails, r.recorded))
  }

  function Runs(s: Site, o: Options, discover: Cluster -> Facts, rounds: seq<Round>): Site
    decreases |rounds|
  {
    if rounds == [] then s else Runs(RunOnce(s, o, discover, rounds[0]), o, discover, rounds[1..])
  }

  /** Any number of interrupted runs, then one that goes through. */
  lemma {:induction false} ManyInterruptedRuns(s: Site, o: Options, discover: Cluster -> Facts, rounds: seq<Round>)
    requires Named(s.cluster)
    requires forall c | Named(c) :: Lists(discover(c), c)
    ensures Named(Runs(s, o, discover, rounds).cluster)
    ensures var e := Runs(s, o, discover, rounds);
      After(e.cluster, InstallPlan(discover(e.cluster), Rerun(o, e.record)))
      == After(s.cluster, InstallPlan(discover(s.cluster), Rerun(o, s.record)))
    decreases |rounds|
  {
    if rounds != [] {
      var r, o1 := rounds[0], Rerun(o, s.record);
      var s2 := RunOnce(s, o, discover, r);
      var f := discover(s.cluster);
      StartIsBetween(s.cluster, o1);
      PlanIsPlanned(f, s.cluster, o1);
      RunStaysBetween(s.cluster, s.cluster, AimOf(s.cluster, o1), InstallPlan(f, o1), r.fails);
      BetweenIsNamed(s.cluster, s2.cluster, AimOf(s.cluster, o1));
      RerunConverges(f, s.cluster, o1, s.record, r.fails, r.recorded, discover(s2.cluster));
      assert Rerun(o1, s2.record) == Rerun(o, s2.record);
      ManyInterruptedRuns(s2, o, discover, rounds[1..]);
    }
  }
}
