/**
 An install converges: whatever changes of a run fail, running it again with the
 same options reaches the cluster an uninterrupted run would have reached, and
 from there the plan changes nothing.

 The reference is Goal: the cluster an install is for, written as one map update
 a queue, with no plan, order or listing in it.
 */
module InstallGoal {
  import opened Text
  import opened Sequences
  import opened Scheduler
  import opened Planner

  /** What a run is for: the queues it starts from once its own is there, those it
      wires, and the PE and complexes it leaves. */
  datatype Aim = Aim(
    base: map<string, Queue>, targets: set<string>, creates: bool,
    pe: string, starter: string, force: bool,
    goalPE: PE, complexes: map<string, Complex>)

  function WiredStarter(q: Queue, a: Aim): string {
    if q.starterMethod == "" || a.force then a.starter else q.starterMethod
  }

  function Wire(q: Queue, a: Aim): Queue {
    q.(peList := Including(q.peList, a.pe), starterMethod := WiredStarter(q, a))
  }

  function WiredSet(c: Cluster, starter: string): set<string> {
    set n | n in c.queues && c.queues[n].starterMethod == starter
  }

  /** No --queue was given, nothing is wired yet and slurm.q does not exist. */
  predicate FirstRun(c: Cluster, o: Options) {
    o.queues == [] && WiredSet(c, StarterPath(o.prefix)) == {} && DEFAULT_QUEUE !in c.queues
  }

  predicate Creates(c: Cluster, o: Options) {
    FirstRun(c, o) && (SHIM_COMPLEX in c.complexes ==> RightComplex(c.complexes[SHIM_COMPLEX]))
  }

  function CloneSource(c: Cluster): string {
    if CLONE_SOURCE in c.queues then CLONE_SOURCE else ""
  }

  function Base(c: Cluster, o: Options): map<string, Queue> {
    if Creates(c, o)
    then c.queues[DEFAULT_QUEUE := Clone(c, CloneSource(c), DEFAULT_QUEUE, SHIM_REQUEST)]
    else c.queues
  }

  /** The names of the queues the run wires. */
  function Targets(c: Cluster, o: Options): set<string> {
    var wired := WiredSet(c, StarterPath(o.prefix));
    if o.queues == [ALL_QUEUES] then c.queues.Keys
    else if ALL_QUEUES in o.queues then {}
    else if o.queues != [] then set n | n in o.queues && n in c.queues
    else if wired != {} then wired
    else if DEFAULT_QUEUE in c.queues then (if o.createdQueue == DEFAULT_QUEUE then {DEFAULT_QUEUE} else {})
    else if Creates(c, o) then {DEFAULT_QUEUE}
    else {}
  }

  function Repaired(have: PE, want: PE, force: bool): PE {
    have.(slots := if have.name == DEFAULT_PE && have.slots == LEGACY_PE_SLOTS then PE_SLOTS_NO_CAP else have.slots,
          startProcArgs := if force then want.startProcArgs else have.startProcArgs,
          controlSlaves := have.controlSlaves || force)
  }

  function GoalPE(c: Cluster, o: Options): PE {
    var want := ReferencePE(PEName(o), o.prefix);
    if PEName(o) in c.pes then Repaired(c.pes[PEName(o)], want, o.force) else want
  }

  function GoalComplexes(c: Cluster, o: Options): map<string, Complex> {
    if Creates(c, o) && SHIM_COMPLEX !in c.complexes
    then c.complexes[SHIM_COMPLEX := Complex(SHIM_COMPLEX, "BOOL", "FORCED")] else c.complexes
  }

  function AimOf(c: Cluster, o: Options): Aim {
    Aim(Base(c, o), Targets(c, o), Creates(c, o), PEName(o), StarterPath(o.prefix), o.force,
        GoalPE(c, o), GoalComplexes(c, o))
  }

  function GoalQueues(a: Aim): map<string, Queue> {
    map n | n in a.base :: if n in a.targets then Wire(a.base[n], a) else a.base[n]
  }

  function GoalOf(c: Cluster, a: Aim): Cluster {
    Cluster(GoalQueues(a), c.pes[a.pe := a.goalPE], a.complexes)
  }

  /** The cluster an install from c with options o is for. */
  function Goal(c: Cluster, o: Options): Cluster {
    GoalOf(c, AimOf(c, o))
  }

  lemma StarterIsAPath(prefix: string)
    ensures StarterPath(prefix) != "" && FromNone(OrNone(StarterPath(prefix))) == StarterPath(prefix)
  {
    assert |StarterPath(prefix)| > 4;
  }

  lemma RequestNamesComplex()
    ensures ComplexName(SHIM_REQUEST) == SHIM_COMPLEX
  {
    IndexOfFirst(SHIM_COMPLEX, '=', "TRUE");
    assert SHIM_REQUEST == SHIM_COMPLEX + ['='] + "TRUE";
  }

  // ---------- The plan's rows are about the goal ----------

  ghost predicate PlannedAttr(have: PE, goal: PE, ch: Change) {
    var set_ := WithPEAttr(have, ch.attr, OrNone(ch.next));
    match ch.attr
    case Slots =>
      ch.prev == LEGACY_SLOTS_TEXT && have.slots == LEGACY_PE_SLOTS != goal.slots
        && set_ == Some(have.(slots := goal.slots))
    case StartProcArgs =>
      ch.prev == have.startProcArgs != goal.startProcArgs && set_ == Some(have.(startProcArgs := goal.startProcArgs))
    case ControlSlaves =>
      ch.prev == "FALSE" && have.controlSlaves != goal.controlSlaves
        && set_ == Some(have.(controlSlaves := goal.controlSlaves))
    case _ => false
  }

  /** A row of a plan computed from c is about the aim of the run from c. */
  ghost predicate Planned(c: Cluster, a: Aim, ch: Change) {
    match ch.kind
    case AddPE => ch.target == a.pe && a.pe !in c.pes && ch.pe == Some(a.goalPE)
    case SetPEAttr => ch.target == a.pe && a.pe in c.pes && PlannedAttr(c.pes[a.pe], a.goalPE, ch)
    case AddToPEList =>
      ch.next == a.pe && ch.target in a.targets && ch.target in a.base && a.pe !in a.base[ch.target].peList
    case SetStarter =>
      && ch.target in a.targets && ch.target in a.base
      && FromNone(OrNone(ch.next)) == a.starter == WiredStarter(a.base[ch.target], a)
      && ch.prev == a.base[ch.target].starterMethod != a.starter
    case AddComplex =>
      && a.creates && ch.target == SHIM_COMPLEX && SHIM_COMPLEX !in c.complexes
      && a.complexes == c.complexes[SHIM_COMPLEX := Complex(SHIM_COMPLEX, "BOOL", "FORCED")]
    case AddQueue =>
      && a.creates && ch.target == DEFAULT_QUEUE && ch.target !in c.queues && ch.target in a.targets
      && (ch.prev == "" || ch.prev in c.queues)
      && ComplexName(ch.next) == SHIM_COMPLEX && ch.next != ""
      && a.base == c.queues[ch.target := Clone(c, ch.prev, ch.target, ch.next)]
    case _ => true
  }

  /** The kinds an install plan is made of. */
  predicate InstallKind(k: ChangeKind) {
    k == AddPE || k == SetPEAttr || k == AddToPEList || k == SetStarter || k == AddComplex || k == AddQueue
    || k == Refused || k == Unchanged
  }

  ghost predicate AllPlanned(c: Cluster, a: Aim, rows: seq<Change>) {
    forall ch | ch in rows :: InstallKind(ch.kind) && Planned(c, a, ch)
  }

  /** A listed queue shows the wiring of the queue it stands for. */
  ghost predicate Shows(q: Queue, base: map<string, Queue>) {
    q.name in base && q.peList == base[q.name].peList && q.starterMethod == base[q.name].starterMethod
  }

  function NameSet(qs: seq<Queue>): set<string> {
    set q | q in qs :: q.name
  }

  lemma NamedTargetsAre(f: Facts, c: Cluster, names: seq<string>)
    requires Named(c) && Lists(f, c)
    ensures var targets := FlatMap(names, FoundIn(f.queues));
      && (forall q | q in targets :: q.name in c.queues && c.queues[q.name] == q && q.name in names)
      && (forall n | n in names && n in c.queues :: c.queues[n] in targets)
    ensures forall ch | ch in FlatMap(names, MissingIn(f.queues)) :: ch.kind == Refused
  {
    FlatMapMembers(names, FoundIn(f.queues));
    FlatMapMembers(names, MissingIn(f.queues));
    forall n | n in names
      ensures FoundIn(f.queues)(n) == if n in c.queues then [c.queues[n]] else []
    {
      Reading(f, c, n);
    }
  }

  lemma WiredAre(qs: seq<Queue>, starter: string)
    ensures forall q :: q in Wired(qs, starter) <==> q in qs && q.starterMethod == starter
  {
    FlatMapMembers(qs, WiredTo(starter));
    forall q | q in qs && q.starterMethod == starter
      ensures q in Wired(qs, starter)
    {
      assert q in WiredTo(starter)(q);
    }
  }

  ghost predicate SelectsTargets(f: Facts, c: Cluster, o: Options) {
    var s := Select(f, o, StarterPath(o.prefix));
    && (forall q | q in s.targets :: Shows(q, Base(c, o)))
    && NameSet(s.targets) == Targets(c, o)
    && (Creates(c, o) ==> s == FirstInstall(f))
    && (!Creates(c, o) ==> forall ch | ch in s.changes :: ch.kind == Refused)
  }

  lemma SelectsNamed(f: Facts, c: Cluster, o: Options)
    requires Named(c) && Lists(f, c)
    requires o.queues != []
    ensures SelectsTargets(f, c, o)
  {
    var s := Select(f, o, StarterPath(o.prefix));
    if o.queues == [ALL_QUEUES] {
      forall n | n in c.queues
        ensures n in NameSet(s.targets)
      {
        assert c.queues[n] in s.targets;
      }
    } else if ALL_QUEUES !in o.queues {
      NamedTargetsAre(f, c, o.queues);
      forall n | n in o.queues && n in c.queues
        ensures n in NameSet(s.targets)
      {
        assert c.queues[n] in s.targets;
      }
    }
  }

  lemma SelectsWired(f: Facts, c: Cluster, starter: string)
    requires Named(c) && Lists(f, c)
    ensures NameSet(Wired(f.queues, starter)) == WiredSet(c, starter)
    ensures Wired(f.queues, starter) == [] <==> WiredSet(c, starter) == {}
  {
    var w := Wired(f.queues, starter);
    WiredAre(f.queues, starter);
    forall n | n in WiredSet(c, starter)
      ensures n in NameSet(w)
    {
      assert c.queues[n] in w;
    }
    if w != [] {
      assert w[0] in w;
      assert w[0].name in WiredSet(c, starter);
    }
  }

  lemma SelectsOwn(f: Facts, c: Cluster, o: Options)
    requires Named(c) && Lists(f, c)
    requires o.queues == [] && WiredSet(c, StarterPath(o.prefix)) == {} && DEFAULT_QUEUE in c.queues
    ensures SelectsTargets(f, c, o)
  {
    SelectsWired(f, c, StarterPath(o.prefix));
    Reading(f, c, DEFAULT_QUEUE);
    SelectOwn(f, o, StarterPath(o.prefix));
    OwnIsTarget(c, o, Select(f, o, StarterPath(o.prefix)));
  }

  lemma SelectOwn(f: Facts, o: Options, starter: string)
    requires o.queues == [] && Wired(f.queues, starter) == [] && FindQueue(f.queues, DEFAULT_QUEUE).Some?
    ensures var own := FindQueue(f.queues, DEFAULT_QUEUE).value;
      Select(f, o, starter).targets == (if o.createdQueue == DEFAULT_QUEUE then [own] else [])
      && forall ch | ch in Select(f, o, starter).changes :: ch.kind == Refused
  {
  }

  lemma OwnIsTarget(c: Cluster, o: Options, s: Selection)
    requires Named(c) && o.queues == [] && WiredSet(c, StarterPath(o.prefix)) == {} && DEFAULT_QUEUE in c.queues
    requires s.targets == if o.createdQueue == DEFAULT_QUEUE then [c.queues[DEFAULT_QUEUE]] else []
    ensures !Creates(c, o) && NameSet(s.targets) == Targets(c, o)
    ensures forall q | q in s.targets :: Shows(q, Base(c, o))
  {
  }

  lemma SelectsFirst(f: Facts, c: Cluster, o: Options)
    requires Named(c) && Lists(f, c)
    requires FirstRun(c, o)
    ensures SelectsTargets(f, c, o)
  {
    SelectsWired(f, c, StarterPath(o.prefix));
    Reading(f, c, DEFAULT_QUEUE);
    Reading(f, c, SHIM_COMPLEX);
    assert Select(f, o, StarterPath(o.prefix)) == FirstInstall(f);
    assert FirstInstall(f).targets == if Creates(c, o) then [FRESH_QUEUE] else [];
  }

  /** The chosen queues are exactly the goal's targets, shown as they are. */
  lemma SelectionIsTargets(f: Facts, c: Cluster, o: Options)
    requires Named(c) && Lists(f, c)
    ensures SelectsTargets(f, c, o)
  {
    var starter := StarterPath(o.prefix);
    if o.queues != [] {
      SelectsNamed(f, c, o);
    } else if WiredSet(c, starter) != {} {
      SelectsWired(f, c, starter);
      WiredAre(f.queues, starter);
    } else if DEFAULT_QUEUE in c.queues {
      SelectsOwn(f, c, o);
    } else {
      SelectsFirst(f, c, o);
    }
  }

  lemma OfferPlanned(c: Cluster, a: Aim, q: Queue)
    requires Shows(q, a.base) && q.name in a.targets
    ensures Planned(c, a, OfferChange(q, a.pe))
  {
  }

  lemma StarterPlanned(c: Cluster, a: Aim, q: Queue)
    requires Shows(q, a.base) && q.name in a.targets
    requires FromNone(OrNone(a.starter)) == a.starter
    ensures Planned(c, a, StarterChange(q, a.starter, a.force))
  {
  }

  lemma {:induction false} WireRowsPlanned(c: Cluster, o: Options, a: Aim, qs: seq<Queue>)
    requires a.pe == PEName(o) && a.starter == StarterPath(o.prefix) && a.force == o.force
    requires forall q | q in qs :: Shows(q, a.base) && q.name in a.targets
    ensures AllPlanned(c, a, FlatMap(qs, WireRows(o)))
  {
    StarterIsAPath(o.prefix);
    FlatMapMembers(qs, WireRows(o));
    forall q, ch | q in qs && ch in WireRows(o)(q)
      ensures InstallKind(ch.kind) && Planned(c, a, ch)
    {
      OfferPlanned(c, a, q);
      StarterPlanned(c, a, q);
      assert ch == OfferChange(q, PEName(o)) || ch == StarterChange(q, StarterPath(o.prefix), o.force);
    }
  }

  lemma RaisePlanned(have: PE, want: PE, force: bool)
    ensures forall ch | ch in RaiseChanges(have) ::
      ch.kind == SetPEAttr && ch.target == have.name && PlannedAttr(have, Repaired(have, want, force), ch)
  {
    SlotTexts();
  }

  lemma FixPlanned(have: PE, want: PE, x: Fix)
    requires want.controlSlaves && want.startProcArgs != ""
    requires x in Fixes(have, want)
    ensures PlannedAttr(have, Repaired(have, want, true), FixChange(have.name, x, true))
  {
    if have.startProcArgs != want.startProcArgs && x == Fix(StartProcArgs, have.startProcArgs, want.startProcArgs) {
    } else {
      assert x == Fix(ControlSlaves, "FALSE", "TRUE") && !have.controlSlaves;
      assert EqualFold("TRUE", "TRUE");
    }
  }

  lemma RepairPlanned(c: Cluster, a: Aim, want: PE)
    requires a.pe in c.pes && c.pes[a.pe].name == a.pe
    requires want.controlSlaves && want.startProcArgs != ""
    requires a.goalPE == Repaired(c.pes[a.pe], want, a.force)
    ensures AllPlanned(c, a, RepairChanges(c.pes[a.pe], want, a.force))
  {
    var have := c.pes[a.pe];
    var fixes := Fixes(have, want);
    var rows := FixRow(have.name, a.force);
    FlatMapMembers(fixes, rows);
    RaisePlanned(have, want, a.force);
    forall x | x in fixes
      ensures rows(x) == [FixChange(a.pe, x, a.force)] && Planned(c, a, FixChange(a.pe, x, a.force))
    {
      if a.force {
        FixPlanned(have, want, x);
      }
    }
  }

  lemma PERowsPlanned(f: Facts, c: Cluster, o: Options)
    requires Named(c) && Lists(f, c)
    ensures AllPlanned(c, AimOf(c, o), PEChanges(f, o))
  {
    Reading(f, c, PEName(o));
    if PEName(o) in c.pes {
      RepairPlanned(c, AimOf(c, o), ReferencePE(PEName(o), o.prefix));
    }
  }

  function AddQueueRow(c: Cluster): Change {
    Change(AddQueue, DEFAULT_QUEUE, NoAttr, CloneSource(c), SHIM_REQUEST, None)
  }

  const ADD_COMPLEX_ROW: Change := Change(AddComplex, SHIM_COMPLEX, NoAttr, "", "", None)

  lemma FirstRows(f: Facts, c: Cluster, o: Options)
    requires Named(c) && Lists(f, c) && Creates(c, o)
    ensures FirstInstall(f) == Selection([FRESH_QUEUE],
        (if SHIM_COMPLEX in c.complexes then [] else [ADD_COMPLEX_ROW]) + [AddQueueRow(c)])
  {
    Reading(f, c, SHIM_COMPLEX);
    Reading(f, c, CLONE_SOURCE);
  }

  lemma AddQueuePlanned(c: Cluster, o: Options)
    requires Named(c) && Creates(c, o)
    ensures Planned(c, AimOf(c, o), AddQueueRow(c))
  {
    RequestNamesComplex();
  }

  lemma AddComplexPlanned(c: Cluster, o: Options)
    requires Creates(c, o) && SHIM_COMPLEX !in c.complexes
    ensures Planned(c, AimOf(c, o), ADD_COMPLEX_ROW)
  {
  }

  lemma FirstRowsPlanned(f: Facts, c: Cluster, o: Options)
    requires Named(c) && Lists(f, c) && Creates(c, o)
    ensures AllPlanned(c, AimOf(c, o), FirstInstall(f).changes)
  {
    FirstRows(f, c, o);
    AddQueuePlanned(c, o);
    if SHIM_COMPLEX !in c.complexes {
      AddComplexPlanned(c, o);
    }
    TwoPlanned(c, AimOf(c, o), if SHIM_COMPLEX in c.complexes then [] else [ADD_COMPLEX_ROW], AddQueueRow(c));
  }

  lemma TwoPlanned(c: Cluster, a: Aim, xs: seq<Change>, y: Change)
    requires AllPlanned(c, a, xs) && InstallKind(y.kind) && Planned(c, a, y)
    ensures AllPlanned(c, a, xs + [y])
  {
  }

  lemma PlanIsPlanned(f: Facts, c: Cluster, o: Options)
    requires Named(c) && Lists(f, c)
    ensures AllPlanned(c, AimOf(c, o), InstallPlan(f, o))
  {
    var s := Select(f, o, StarterPath(o.prefix));
    SelectionIsTargets(f, c, o);
    PERowsPlanned(f, c, o);
    forall q | q in s.targets
      ensures q.name in Targets(c, o)
    {
      assert q.name in NameSet(s.targets);
    }
    WireRowsPlanned(c, o, AimOf(c, o), s.targets);
    if Creates(c, o) {
      FirstRowsPlanned(f, c, o);
    }
    ThreePlanned(c, AimOf(c, o), PEChanges(f, o), s.changes, FlatMap(s.targets, WireRows(o)));
  }

  lemma ThreePlanned(c: Cluster, a: Aim, x: seq<Change>, y: seq<Change>, z: seq<Change>)
    requires AllPlanned(c, a, x) && AllPlanned(c, a, y) && AllPlanned(c, a, z)
    ensures AllPlanned(c, a, x + y + z)
  {
  }

  // ---------- A run interrupted anywhere stays between its start and its goal ----------

  ghost predicate PartlyWired(base: Queue, q: Queue, a: Aim) {
    && q == base.(peList := q.peList, starterMethod := q.starterMethod)
    && (q.peList == base.peList || q.peList == Wire(base, a).peList)
    && (q.starterMethod == base.starterMethod || q.starterMethod == WiredStarter(base, a))
  }

  ghost predicate PartlyRepaired(base: PE, goal: PE, p: PE) {
    && p == base.(slots := p.slots, startProcArgs := p.startProcArgs, controlSlaves := p.controlSlaves)
    && (p.slots == base.slots || p.slots == goal.slots)
    && (p.startProcArgs == base.startProcArgs || p.startProcArgs == goal.startProcArgs)
    && (p.controlSlaves == base.controlSlaves || p.controlSlaves == goal.controlSlaves)
  }

  ghost predicate QueuesBetween(c: Cluster, d: Cluster, a: Aim) {
    && c.queues.Keys <= d.queues.Keys <= a.base.Keys
    && (forall n | n in d.queues ::
          PartlyWired(a.base[n], d.queues[n], a) && (n !in a.targets ==> d.queues[n] == a.base[n]))
  }

  ghost predicate PEsBetween(c: Cluster, d: Cluster, a: Aim) {
    && c.pes.Keys <= d.pes.Keys <= c.pes.Keys + {a.pe}
    && (forall n | n in c.pes && n != a.pe :: d.pes[n] == c.pes[n])
    && (a.pe in c.pes ==> PartlyRepaired(c.pes[a.pe], a.goalPE, d.pes[a.pe]))
    && (a.pe !in c.pes && a.pe in d.pes ==> d.pes[a.pe] == a.goalPE)
  }

  ghost predicate ComplexesBetween(c: Cluster, d: Cluster, a: Aim) {
    && c.complexes.Keys <= d.complexes.Keys <= a.complexes.Keys
    && (forall n | n in d.complexes :: d.complexes[n] == a.complexes[n])
    && (a.creates && d.queues.Keys != c.queues.Keys ==> SHIM_COMPLEX in d.complexes)
  }

  ghost predicate Between(c: Cluster, d: Cluster, a: Aim) {
    QueuesBetween(c, d, a) && PEsBetween(c, d, a) && ComplexesBetween(c, d, a)
  }

  ghost predicate AimNamed(a: Aim) {
    a.goalPE.name == a.pe != "" && "" !in a.base && forall n | n in a.base :: a.base[n].name == n
  }

  lemma StartIsBetween(c: Cluster, o: Options)
    requires Named(c)
    ensures Between(c, c, AimOf(c, o)) && AimNamed(AimOf(c, o))
  {
  }

  lemma BetweenIsNamed(c: Cluster, d: Cluster, a: Aim)
    requires Named(c) && AimNamed(a) && Between(c, d, a)
    requires forall n | n in a.complexes :: a.complexes[n].name == n
    ensures Named(d)
  {
  }

  lemma QueueStep(c: Cluster, d: Cluster, a: Aim, ch: Change)
    requires QueuesBetween(c, d, a) && Planned(c, a, ch) && Perform(d, ch).Some?
    requires ch.kind == AddToPEList || ch.kind == SetStarter
    ensures QueuesBetween(c, Perform(d, ch).value, a)
  {
  }

  /** What a planned attribute write does to any PE: it sets the goal's value. */
  lemma AttrWrite(have: PE, goal: PE, ch: Change, p: PE)
    requires PlannedAttr(have, goal, ch)
    ensures WithPEAttr(p, ch.attr, OrNone(ch.next)) == Some(
      match ch.attr
      case Slots => p.(slots := goal.slots)
      case StartProcArgs => p.(startProcArgs := goal.startProcArgs)
      case _ => p.(controlSlaves := goal.controlSlaves))
  {
    match ch.attr
    case Slots =>
      assert have.(slots := goal.slots).slots == goal.slots;
    case StartProcArgs =>
      assert have.(startProcArgs := goal.startProcArgs).startProcArgs == goal.startProcArgs;
    case ControlSlaves =>
      assert have.(controlSlaves := goal.controlSlaves).controlSlaves == goal.controlSlaves;
  }

  lemma PEStep(c: Cluster, d: Cluster, a: Aim, ch: Change)
    requires AimNamed(a)
    requires PEsBetween(c, d, a) && Planned(c, a, ch) && Perform(d, ch).Some?
    requires ch.kind == AddPE || ch.kind == SetPEAttr
    ensures PEsBetween(c, Perform(d, ch).value, a)
  {
    if ch.kind == SetPEAttr {
      var p := d.pes[a.pe];
      AttrWrite(c.pes[a.pe], a.goalPE, ch, p);
      var p' := WithPEAttr(p, ch.attr, OrNone(ch.next)).value;
      assert PartlyRepaired(c.pes[a.pe], a.goalPE, p');
    }
  }

  lemma AddQueueStep(c: Cluster, d: Cluster, a: Aim, ch: Change)
    requires AimNamed(a)
    requires QueuesBetween(c, d, a) && Planned(c, a, ch) && Perform(d, ch).Some?
    requires ch.kind == AddQueue
    ensures QueuesBetween(c, Perform(d, ch).value, a)
  {
    assert Clone(d, ch.prev, ch.target, ch.next) == Clone(c, ch.prev, ch.target, ch.next);
  }

  lemma PEStepStays(c: Cluster, d: Cluster, a: Aim, ch: Change)
    requires AimNamed(a) && Between(c, d, a) && Planned(c, a, ch) && Perform(d, ch).Some?
    requires ch.kind == AddPE || ch.kind == SetPEAttr
    ensures Between(c, Perform(d, ch).value, a)
  {
    PEStep(c, d, a, ch);
    PEStepOnly(d, ch);
  }

  lemma PEStepOnly(d: Cluster, ch: Change)
    requires Perform(d, ch).Some? && (ch.kind == AddPE || ch.kind == SetPEAttr)
    ensures Perform(d, ch).value == d.(pes := Perform(d, ch).value.pes)
  {
  }

  lemma QueueStepStays(c: Cluster, d: Cluster, a: Aim, ch: Change)
    requires AimNamed(a) && Between(c, d, a) && Planned(c, a, ch) && Perform(d, ch).Some?
    requires ch.kind == AddToPEList || ch.kind == SetStarter
    ensures Between(c, Perform(d, ch).value, a)
  {
    QueueStep(c, d, a, ch);
    QueueStepOnly(d, ch);
  }

  lemma QueueStepOnly(d: Cluster, ch: Change)
    requires Perform(d, ch).Some? && (ch.kind == AddToPEList || ch.kind == SetStarter || ch.kind == AddQueue)
    ensures Perform(d, ch).value == d.(queues := Perform(d, ch).value.queues)
    ensures d.queues.Keys <= Perform(d, ch).value.queues.Keys
    ensures ch.kind != AddQueue ==> Perform(d, ch).value.queues.Keys == d.queues.Keys
  {
  }

  lemma AddQueueStays(c: Cluster, d: Cluster, a: Aim, ch: Change)
    requires AimNamed(a) && Between(c, d, a) && Planned(c, a, ch) && Perform(d, ch).Some?
    requires ch.kind == AddQueue
    ensures Between(c, Perform(d, ch).value, a)
  {
    AddQueueStep(c, d, a, ch);
    QueueStepOnly(d, ch);
  }

  lemma AddComplexStays(c: Cluster, d: Cluster, a: Aim, ch: Change)
    requires AimNamed(a) && Between(c, d, a) && Planned(c, a, ch) && Perform(d, ch).Some?
    requires ch.kind == AddComplex
    ensures Between(c, Perform(d, ch).value, a)
  {
  }

  lemma StepStaysBetween(c: Cluster, d: Cluster, a: Aim, ch: Change, fail: bool)
    requires AimNamed(a) && Between(c, d, a) && Planned(c, a, ch) && InstallKind(ch.kind)
    ensures Between(c, Next(d, ch, fail), a)
  {
    if Succeeds(d, ch, fail) && Mutating(ch.kind) {
      match ch.kind {
        case AddPE => PEStepStays(c, d, a, ch);
        case SetPEAttr => PEStepStays(c, d, a, ch);
        case AddToPEList => QueueStepStays(c, d, a, ch);
        case SetStarter => QueueStepStays(c, d, a, ch);
        case AddQueue => AddQueueStays(c, d, a, ch);
        case AddComplex => AddComplexStays(c, d, a, ch);
      }
    }
  }

  lemma {:induction false} RunStaysBetween(c: Cluster, d: Cluster, a: Aim, rows: seq<Change>, fails: seq<bool>)
    requires AimNamed(a) && Between(c, d, a) && AllPlanned(c, a, rows)
    ensures Between(c, After(d, rows, fails), a)
    decreases |rows|
  {
    if rows != [] {
      assert rows[0] in rows;
      StepStaysBetween(c, d, a, rows[0], Head(fails));
      RunStaysBetween(c, Next(d, rows[0], Head(fails)), a, rows[1..], Tail(fails));
    }
  }
}
