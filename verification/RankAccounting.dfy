/**
 The accounting of one stepper run: ranks are spawned in order, each rank's pumps and
 waiter run beside the others, every rank is reported to srun and counted on a channel
 with room for all of them, and the run ends with the ranks' exit code.
 */
module RankAccounting {

  /** How a rank ended: its exit code, or a reason it never ran. */
  datatype Ending = Code(code: int) | Failed

  /** The code a result counts as: a failed rank is counted with the zero rankResult. */
  function CodeOf(r: Ending): int {
    if r.Code? then r.code else 0
  }

  datatype Phase =
    | Unspawned
    | Running(pumps: nat)               // started, with pumps pipes still open
    | Exited(pumps: nat, result: Ending) // reaped, with pumps pipes not yet drained
    | SpawnFailed                        // could not be started: the spawn loop reports it
    | Reported(result: Ending, spawned: bool) // its terminal frame has been sent
    | Queued(result: Ending)             // its result is in the channel
    | Counted(result: Ending)            // its result has been received

  /** A frame to srun about rank i. */
  datatype Sent = Out(i: nat) | End(i: nat, result: Ending)

  datatype State = State(phases: seq<Phase>, sent: seq<Sent>, queue: seq<nat>, maxCode: int, stopped: bool)

  function Initial(n: nat): State {
    State(seq(n, _ => Unspawned), [], [], 0, false)
  }

  datatype Event =
    | SpawnOk(pumps: nat)
    | SpawnFails
    | Output(i: nat)
    | ClosePump(i: nat)
    | Exit(i: nat, result: Ending)
    | Report(i: nat)
    | Push(i: nat)
    | Receive
    | Signalled

  /** The rank the spawn loop is at: all before it have been spawned. */
  function NextSpawn(phases: seq<Phase>): (i: nat)
    ensures i <= |phases| && (i < |phases| ==> phases[i] == Unspawned)
    ensures forall j | 0 <= j < i :: phases[j] != Unspawned
  {
    if phases == [] || phases[0] == Unspawned then 0
    else
      var i := NextSpawn(phases[1..]);
      i + 1
  }

  /** What a rank about to be reported has to say. */
  function ToReport(p: Phase): Ending
    requires p.SpawnFailed? || (p.Exited? && p.pumps == 0)
  {
    if p.SpawnFailed? then Failed else p.result
  }

  /** The spawn loop is busy with this rank: it reports and queues the ones it could not
      start itself, before it goes on. */
  predicate HoldsLoop(p: Phase) {
    p.SpawnFailed? || (p.Reported? && !p.spawned)
  }

  /** The rank the spawn loop is busy with, |phases| for none. */
  function HeldBy(phases: seq<Phase>): (i: nat)
    ensures i <= |phases| && (i < |phases| ==> HoldsLoop(phases[i]))
  {
    if phases == [] || HoldsLoop(phases[0]) then 0
    else
      var i := HeldBy(phases[1..]);
      i + 1
  }

  predicate CanSpawn(s: State) {
    HeldBy(s.phases) == |s.phases| && NextSpawn(s.phases) < |s.phases|
  }

  /** Results are collected once the spawn loop is through. */
  predicate Collecting(s: State) {
    HeldBy(s.phases) == |s.phases| && NextSpawn(s.phases) == |s.phases|
  }

  predicate Enabled(s: State, e: Event) {
    match e
    case SpawnOk(pumps) => CanSpawn(s) && pumps <= 2
    case SpawnFails => CanSpawn(s)
    case Output(i) => i < |s.phases| && (s.phases[i].Running? || s.phases[i].Exited?) && s.phases[i].pumps > 0
    case ClosePump(i) => i < |s.phases| && (s.phases[i].Running? || s.phases[i].Exited?) && s.phases[i].pumps > 0
    case Exit(i, r) => i < |s.phases| && s.phases[i].Running?
    case Report(i) => i < |s.phases| && (s.phases[i].SpawnFailed? || (s.phases[i].Exited? && s.phases[i].pumps == 0))
    case Push(i) => i < |s.phases| && s.phases[i].Reported? && |s.queue| < |s.phases|
    case Receive => Collecting(s) && s.queue != [] && s.queue[0] < |s.phases| && s.phases[s.queue[0]].Queued?
    case Signalled => true
  }

  function At(s: State, i: nat, p: Phase): State
    requires i < |s.phases|
  {
    s.(phases := s.phases[i := p])
  }

  function Next(s: State, e: Event): State
    requires Enabled(s, e)
  {
    match e
    case SpawnOk(pumps) => At(s, NextSpawn(s.phases), Running(pumps))
    case SpawnFails => At(s, NextSpawn(s.phases), SpawnFailed)
    case Output(i) => s.(sent := s.sent + [Out(i)])
    case ClosePump(i) => At(s, i, s.phases[i].(pumps := s.phases[i].pumps - 1))
    case Exit(i, r) => At(s, i, Exited(s.phases[i].pumps, r))
    case Report(i) =>
      At(s, i, Reported(ToReport(s.phases[i]), !s.phases[i].SpawnFailed?))
        .(sent := s.sent + [End(i, ToReport(s.phases[i]))])
    case Push(i) => At(s, i, Queued(s.phases[i].result)).(queue := s.queue + [i])
    case Receive =>
      var r := s.phases[s.queue[0]].result;
      At(s, s.queue[0], Counted(r)).(queue := s.queue[1..],
        maxCode := if CodeOf(r) > s.maxCode then CodeOf(r) else s.maxCode)
    case Signalled => s.(stopped := true)
  }

  /** Whether es can happen, step after step, in a run with n ranks. */
  predicate Feasible(n: nat, es: seq<Event>)
    decreases |es|, 0
  {
    es == [] || (Feasible(n, es[..|es| - 1]) && Enabled(Run(n, es[..|es| - 1]), es[|es| - 1]))
  }

  /** The state es leads to. */
  function Run(n: nat, es: seq<Event>): State
    requires Feasible(n, es)
    decreases |es|, 1
  {
    if es == [] then Initial(n) else Next(Run(n, es[..|es| - 1]), es[|es| - 1])
  }

  // ---------- The invariant ----------

  predicate HasEnded(p: Phase) {
    p.Reported? || p.Queued? || p.Counted?
  }

  /** The frames sent about rank i. */
  function About(sent: seq<Sent>, i: nat): seq<Sent> {
    if sent == [] then []
    else About(sent[..|sent| - 1], i) + (if sent[|sent| - 1].i == i then [sent[|sent| - 1]] else [])
  }

  predicate OnlyOutput(sent: seq<Sent>) {
    forall k | 0 <= k < |sent| :: sent[k].Out?
  }

  /** A rank still running has sent output only; one that has ended, then its end, last. */
  predicate Accounted(p: Phase, about: seq<Sent>) {
    if HasEnded(p) then
      about != [] && about[|about| - 1].End? && about[|about| - 1].result == p.result
        && OnlyOutput(about[..|about| - 1])
    else OnlyOutput(about)
  }

  /** The largest code counted, 0 when there is none. */
  function MaxCounted(phases: seq<Phase>): int {
    if phases == [] then 0
    else
      var m := MaxCounted(phases[1..]);
      if phases[0].Counted? && CodeOf(phases[0].result) > m then CodeOf(phases[0].result) else m
  }

  /** How many results are in the channel. */
  function Waiting(phases: seq<Phase>): nat {
    if phases == [] then 0 else (if phases[0].Queued? then 1 else 0) + Waiting(phases[1..])
  }

  ghost predicate Valid(s: State) {
    && (forall i | 0 <= i < |s.phases| :: Accounted(s.phases[i], About(s.sent, i)))
    && (forall k | 0 <= k < |s.queue| :: s.queue[k] < |s.phases| && s.phases[s.queue[k]].Queued?)
    && (forall k, l | 0 <= k < l < |s.queue| :: s.queue[k] != s.queue[l])
    && |s.queue| == Waiting(s.phases)
    && s.maxCode == MaxCounted(s.phases)
  }

  lemma {:induction false} WaitingAt(phases: seq<Phase>, i: nat, p: Phase)
    requires i < |phases|
    ensures Waiting(phases[i := p]) == Waiting(phases) - (if phases[i].Queued? then 1 else 0)
      + (if p.Queued? then 1 else 0)
    ensures Waiting(phases) <= |phases| && (!phases[i].Queued? ==> Waiting(phases) < |phases|)
  {
    if i == 0 {
      WaitingFits(phases[1..]);
      assert phases[i := p][1..] == phases[1..];
    } else {
      assert phases[i := p][1..] == phases[1..][i - 1 := p];
      WaitingAt(phases[1..], i - 1, p);
    }
  }

  lemma {:induction false} WaitingFits(phases: seq<Phase>)
    ensures Waiting(phases) <= |phases|
  {
    if phases != [] {
      WaitingFits(phases[1..]);
    }
  }

  lemma {:induction false} MaxCountedAt(phases: seq<Phase>, i: nat, p: Phase)
    requires i < |phases| && !phases[i].Counted?
    ensures MaxCounted(phases[i := p]) ==
      if p.Counted? && CodeOf(p.result) > MaxCounted(phases) then CodeOf(p.result) else MaxCounted(phases)
  {
    if i == 0 {
      assert phases[i := p][1..] == phases[1..];
    } else {
      assert phases[i := p][1..] == phases[1..][i - 1 := p];
      MaxCountedAt(phases[1..], i - 1, p);
    }
  }

  lemma AboutSnoc(sent: seq<Sent>, f: Sent, i: nat)
    ensures About(sent + [f], i) == About(sent, i) + (if f.i == i then [f] else [])
  {
    assert (sent + [f])[..|sent|] == sent;
  }

  /** A step that only moves rank i on, to a phase that is neither queued nor counted. */
  lemma MoveKeepsValid(s: State, i: nat, p: Phase)
    requires Valid(s) && i < |s.phases| && !s.phases[i].Queued? && !s.phases[i].Counted? && !p.Queued? && !p.Counted?
    requires Accounted(p, About(s.sent, i))
    ensures Valid(At(s, i, p))
  {
    WaitingAt(s.phases, i, p);
    MaxCountedAt(s.phases, i, p);
  }

  lemma {:induction false} OutputKeepsValid(s: State, i: nat)
    requires Valid(s) && Enabled(s, Output(i))
    ensures Valid(Next(s, Output(i)))
  {
    forall j | 0 <= j < |s.phases|
      ensures Accounted(s.phases[j], About(s.sent + [Out(i)], j))
    {
      AboutSnoc(s.sent, Out(i), j);
    }
  }

  lemma EndIsAccounted(about: seq<Sent>, i: nat, r: Ending, spawned: bool)
    requires OnlyOutput(about)
    ensures Accounted(Reported(r, spawned), about + [End(i, r)])
  {
    assert (about + [End(i, r)])[..|about|] == about;
  }

  /** Rank i's end frame, from its own point of view and from another rank's. */
  lemma ReportAccounts(sent: seq<Sent>, p: Phase, i: nat, r: Ending, j: nat, spawned: bool)
    requires Accounted(p, About(sent, j)) && (j == i ==> !HasEnded(p))
    ensures Accounted(if j == i then Reported(r, spawned) else p, About(sent + [End(i, r)], j))
  {
    AboutSnoc(sent, End(i, r), j);
    if j == i {
      EndIsAccounted(About(sent, i), i, r, spawned);
    } else {
      assert About(sent, j) + [] == About(sent, j);
    }
  }

  lemma ReportKeepsValid(s: State, i: nat)
    requires Valid(s) && Enabled(s, Report(i))
    ensures Valid(Next(s, Report(i)))
  {
    var r := ToReport(s.phases[i]);
    var t := Next(s, Report(i));
    var p := t.phases[i];
    WaitingAt(s.phases, i, p);
    MaxCountedAt(s.phases, i, p);
    forall j | 0 <= j < |s.phases|
      ensures Accounted(t.phases[j], About(t.sent, j))
    {
      ReportAccounts(s.sent, s.phases[j], i, r, j, p.spawned);
    }
  }

  lemma PushKeepsValid(s: State, i: nat)
    requires Valid(s) && Enabled(s, Push(i))
    ensures Valid(Next(s, Push(i)))
  {
    WaitingAt(s.phases, i, Queued(s.phases[i].result));
    MaxCountedAt(s.phases, i, Queued(s.phases[i].result));
  }

  lemma ReceiveKeepsValid(s: State)
    requires Valid(s) && Enabled(s, Receive)
    ensures Valid(Next(s, Receive))
  {
    var i := s.queue[0];
    WaitingAt(s.phases, i, Counted(s.phases[i].result));
    MaxCountedAt(s.phases, i, Counted(s.phases[i].result));
  }

  lemma StepKeepsValid(s: State, e: Event)
    requires Valid(s) && Enabled(s, e)
    ensures Valid(Next(s, e)) && |Next(s, e).phases| == |s.phases|
  {
    match e {
      case SpawnOk(pumps) => MoveKeepsValid(s, NextSpawn(s.phases), Running(pumps));
      case SpawnFails => MoveKeepsValid(s, NextSpawn(s.phases), SpawnFailed);
      case Output(i) => OutputKeepsValid(s, i);
      case ClosePump(i) => MoveKeepsValid(s, i, s.phases[i].(pumps := s.phases[i].pumps - 1));
      case Exit(i, r) => MoveKeepsValid(s, i, Exited(s.phases[i].pumps, r));
      case Report(i) => ReportKeepsValid(s, i);
      case Push(i) => PushKeepsValid(s, i);
      case Receive => ReceiveKeepsValid(s);
      case Signalled =>
    }
  }

  lemma {:induction false} NothingYet(n: nat)
    ensures Waiting(seq(n, _ => Unspawned)) == 0 && MaxCounted(seq(n, _ => Unspawned)) == 0
  {
    if n > 0 {
      assert seq(n, _ => Unspawned)[1..] == seq(n - 1, _ => Unspawned);
      NothingYet(n - 1);
    }
  }

  lemma {:induction false} RunIsValid(n: nat, es: seq<Event>)
    requires Feasible(n, es)
    ensures Valid(Run(n, es)) && |Run(n, es).phases| == n
  {
    if es == [] {
      NothingYet(n);
    } else {
      RunIsValid(n, es[..|es| - 1]);
      StepKeepsValid(Run(n, es[..|es| - 1]), es[|es| - 1]);
    }
  }

  // ---------- What the invariant gives ----------

  /** The channel never blocks: a reported rank finds room. */
  lemma PushNeverBlocks(n: nat, es: seq<Event>, i: nat)
    requires Feasible(n, es) && i < |Run(n, es).phases| && Run(n, es).phases[i].Reported?
    ensures Enabled(Run(n, es), Push(i))
  {
    RunIsValid(n, es);
    var s := Run(n, es);
    WaitingAt(s.phases, i, s.phases[i]);
  }

  /** No output follows a rank's end, and there is one end: once it has ended, its frames
      are output and then, last, the one frame that says how. */
  lemma EndIsLast(n: nat, es: seq<Event>, i: nat)
    requires Feasible(n, es) && i < n
    ensures |Run(n, es).phases| == n
    ensures var s := Run(n, es); Accounted(s.phases[i], About(s.sent, i))
  {
    RunIsValid(n, es);
  }

  /** Every rank's result has been received: the run ends. */
  predicate Finished(s: State) {
    forall i | 0 <= i < |s.phases| :: s.phases[i].Counted?
  }

  /** What the process exits with. */
  const TERMINATED: int := 143

  function ExitCode(s: State): int {
    if s.stopped then TERMINATED else s.maxCode
  }

  lemma {:induction false} MaxCountedBounds(phases: seq<Phase>)
    requires forall i | 0 <= i < |phases| :: phases[i].Counted?
    ensures MaxCounted(phases) >= 0
    ensures forall i | 0 <= i < |phases| :: CodeOf(phases[i].result) <= MaxCounted(phases)
    ensures MaxCounted(phases) == 0 || exists i :: 0 <= i < |phases| && CodeOf(phases[i].result) == MaxCounted(phases)
  {
    if phases != [] {
      var rest := phases[1..];
      MaxCountedBounds(rest);
      assert forall i | 0 < i < |phases| :: phases[i] == rest[i - 1];
      if MaxCounted(phases) != 0 && CodeOf(phases[0].result) != MaxCounted(phases) {
        var j :| 0 <= j < |rest| && CodeOf(rest[j].result) == MaxCounted(rest);
        assert CodeOf(phases[j + 1].result) == MaxCounted(phases);
      }
    }
  }

  /** A finished run: one end frame per rank, and the exit code is the largest of the
      ranks' codes and 0, a rank that never ran counting 0 -- or 143 if it was stopped. */
  lemma FinishedRun(n: nat, es: seq<Event>)
    requires Feasible(n, es) && Finished(Run(n, es))
    ensures var s := Run(n, es);
      && |s.phases| == n
      && (forall i | 0 <= i < n :: var about := About(s.sent, i);
            about != [] && about[|about| - 1] == End(i, s.phases[i].result) && OnlyOutput(about[..|about| - 1]))
      && (s.stopped ==> ExitCode(s) == 143)
      && (!s.stopped ==>
            && ExitCode(s) >= 0
            && (forall i | 0 <= i < n && s.phases[i].result.Code? :: s.phases[i].result.code <= ExitCode(s))
            && (ExitCode(s) == 0 || exists i :: 0 <= i < n && s.phases[i].result == Code(ExitCode(s))))
  {
    var s := Run(n, es);
    RunIsValid(n, es);
    MaxCountedBounds(s.phases);
    forall i | 0 <= i < n
      ensures About(s.sent, i)[|About(s.sent, i)| - 1] == End(i, s.phases[i].result)
    {
      assert Accounted(s.phases[i], About(s.sent, i));
      AboutIsOwn(s.sent, i);
    }
  }

  lemma {:induction false} AboutIsOwn(sent: seq<Sent>, i: nat)
    ensures forall k | 0 <= k < |About(sent, i)| :: About(sent, i)[k].i == i
  {
    if sent != [] {
      AboutIsOwn(sent[..|sent| - 1], i);
    }
  }

  // ---------- The run ends ----------

  /** The steps a rank still has to take, not counting output. */
  function Ahead(p: Phase): nat {
    match p
    case Unspawned => 7
    case Running(pumps) => 4 + pumps
    case Exited(pumps, _) => 3 + pumps
    case SpawnFailed => 3
    case Reported(_, _) => 2
    case Queued(_) => 1
    case Counted(_) => 0
  }

  function Total(phases: seq<Phase>): nat {
    if phases == [] then 0 else Ahead(phases[0]) + Total(phases[1..])
  }

  lemma {:induction false} TotalAt(phases: seq<Phase>, i: nat, p: Phase)
    requires i < |phases|
    ensures Total(phases[i := p]) == Total(phases) - Ahead(phases[i]) + Ahead(p)
  {
    if i == 0 {
      assert phases[i := p][1..] == phases[1..];
    } else {
      assert phases[i := p][1..] == phases[1..][i - 1 := p];
      TotalAt(phases[1..], i - 1, p);
    }
  }

  /** Every step but output and signals brings the end nearer; those two leave it where it is. */
  lemma StepsAdvance(s: State, e: Event)
    requires Enabled(s, e)
    ensures if e.Output? || e.Signalled? then Total(Next(s, e).phases) == Total(s.phases)
            else Total(Next(s, e).phases) < Total(s.phases)
  {
    match e {
      case SpawnOk(pumps) => TotalAt(s.phases, NextSpawn(s.phases), Running(pumps));
      case SpawnFails => TotalAt(s.phases, NextSpawn(s.phases), SpawnFailed);
      case Output(i) =>
      case ClosePump(i) => TotalAt(s.phases, i, s.phases[i].(pumps := s.phases[i].pumps - 1));
      case Exit(i, r) => TotalAt(s.phases, i, Exited(s.phases[i].pumps, r));
      case Report(i) => TotalAt(s.phases, i, Reported(ToReport(s.phases[i]), !s.phases[i].SpawnFailed?));
      case Push(i) => TotalAt(s.phases, i, Queued(s.phases[i].result));
      case Receive => TotalAt(s.phases, s.queue[0], Counted(s.phases[s.queue[0]].result));
      case Signalled =>
    }
  }

  lemma {:induction false} SomeoneQueued(phases: seq<Phase>, i: nat)
    requires i < |phases| && phases[i].Queued?
    ensures Waiting(phases) > 0
  {
    if i > 0 {
      SomeoneQueued(phases[1..], i - 1);
    }
  }

  /** The spawn loop's own next step, while it is not through. */
  function LoopStep(s: State): Event {
    var i := HeldBy(s.phases);
    if i == |s.phases| then SpawnFails else if s.phases[i].SpawnFailed? then Report(i) else Push(i)
  }

  /** A step the stepper can take while rank i is not counted. Only a running rank waits for
      a process: itself, to exit or to close its output. One to be spawned or collected
      waits for the spawn loop. */
  function Advance(s: State, i: nat): Event
    requires i < |s.phases| && !s.phases[i].Counted?
  {
    match s.phases[i]
    case Unspawned => LoopStep(s)
    case Running(_) => Exit(i, Failed)
    case Exited(pumps, _) => if pumps > 0 then ClosePump(i) else Report(i)
    case SpawnFailed => Report(i)
    case Reported(_, _) => Push(i)
    case Queued(_) => if Collecting(s) then Receive else LoopStep(s)
  }

  lemma LoopCanStep(s: State)
    requires Valid(s) && !Collecting(s)
    ensures Enabled(s, LoopStep(s))
  {
    var i := HeldBy(s.phases);
    if i < |s.phases| && s.phases[i].Reported? {
      WaitingAt(s.phases, i, s.phases[i]);
    }
  }

  lemma {:induction false} UnspawnedIsNext(phases: seq<Phase>, i: nat)
    requires i < |phases| && phases[i] == Unspawned
    ensures NextSpawn(phases) < |phases|
  {
    if i > 0 && phases[0] != Unspawned {
      UnspawnedIsNext(phases[1..], i - 1);
    }
  }

  /** No deadlock: until the run has finished, every rank not yet counted can move on, or the
      spawn loop it waits for can. */
  lemma NeverStuck(n: nat, es: seq<Event>, i: nat)
    requires Feasible(n, es) && i < |Run(n, es).phases| && !Run(n, es).phases[i].Counted?
    ensures Enabled(Run(n, es), Advance(Run(n, es), i))
  {
    RunIsValid(n, es);
    var s := Run(n, es);
    match s.phases[i] {
      case Unspawned =>
        UnspawnedIsNext(s.phases, i);
        LoopCanStep(s);
      case Reported(_, _) => WaitingAt(s.phases, i, s.phases[i]);
      case Queued(_) =>
        SomeoneQueued(s.phases, i);
        if !Collecting(s) {
          LoopCanStep(s);
        }
      case _ =>
    }
  }

  // ---------- When the outputs cannot be opened ----------

  /** What run sends and returns when a pattern file cannot be opened: every rank fails,
      none is started. */
  method FailAll(n: nat) returns (sent: seq<Sent>, code: int)
    ensures |sent| == n && forall i | 0 <= i < n :: sent[i] == End(i, Failed)
    ensures code == 1
  {
    sent := [];
    for i := 0 to n
      invariant |sent| == i && forall j | 0 <= j < i :: sent[j] == End(j, Failed)
    {
      sent := sent + [End(i, Failed)];
    }
    code := 1;
  }

  /** The loop that takes the results off the channel. */
  method LargestCode(results: seq<Ending>) returns (code: int)
    ensures code >= 0 && forall i | 0 <= i < |results| && results[i].Code? :: results[i].code <= code
    ensures code == 0 || Code(code) in results
  {
    code := 0;
    for i := 0 to |results|
      invariant code >= 0 && forall j | 0 <= j < i :: CodeOf(results[j]) <= code
      invariant code == 0 || exists j :: 0 <= j < i && CodeOf(results[j]) == code
    {
      if CodeOf(results[i]) > code {
        code := CodeOf(results[i]);
      }
    }
  }
}
