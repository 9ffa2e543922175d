/**
 Launching one stepper through qrsh: a freshly spawned qrsh that exits at once was
 rejected, and depending on what it said the launch is retried for a while, given up,
 or blamed on the host. Times are nanoseconds.
 */
module QrshLaunch {
  import opened Text

  const SECOND: nat := 1_000_000_000
  const RACE_GRACE: nat := 10 * SECOND
  const RACE_BACKOFF: nat := SECOND / 2
  const SLOT_BACKOFF: nat := 2 * SECOND

  /** The least a retry waits: half its backoff. */
  const RACE_STEP: nat := RACE_BACKOFF / 2
  const SLOT_STEP: nat := SLOT_BACKOFF / 2

  const DEFAULT_SLOT_RETRY: nat := 300 * SECOND

  // ---------- Classifying a rejection ----------

  datatype Rejection = Fatal | JobRace | Slots

  predicate SaysMisconfigured(s: string) {
    Contains(s, "not set in environment") || Contains(s, "missing \"sge_task_id\"") || Contains(s, "missing \"job_id\"")
  }

  predicate SaysNoSlots(s: string) {
    Contains(s, "no suitable queues")
  }

  /** Anything not recognised counts as the job race, and so is retried only briefly. */
  function Classify(stderr: string): Rejection {
    var s := ToLower(stderr);
    if SaysMisconfigured(s) then Fatal else if SaysNoSlots(s) then Slots else JobRace
  }

  /** Classify as a value: the loop's bound holds for any way of telling rejections apart. */
  function Classifier(): string -> Rejection {
    s => Classify(s)
  }

  /** A backoff spread over [d/2, 3d/2); draw is the random number. */
  function Jittered(d: nat, draw: nat): (t: nat)
    requires d > 0
    ensures d / 2 <= t < d / 2 + d
  {
    d / 2 + draw % d
  }

  // ---------- The environment ----------

  /** What happens to one attempt: the context is cancelled, the spawn fails, or qrsh is
      watched; how long that took, what the random number and the oversleep are. */
  datatype Attempt = Attempt(cancelled: bool, spawnError: bool, exited: bool, tail: string,
                             took: nat, draw: nat, late: nat)

  /** Everything outside the loop: the attempts, how rejections are told apart, the clock
      when the loop starts, how long reading the clock twice took, and the configured slot
      retry bound. */
  datatype World = World(attempt: nat -> Attempt, classify: string -> Rejection, start: int, gap: nat, slotRetry: int)
  {
    function SlotBound(): nat {
      if slotRetry <= 0 then DEFAULT_SLOT_RETRY else slotRetry
    }

    function RaceDeadline(): int {
      start + RACE_GRACE
    }

    function SlotDeadline(): int {
      start + gap + SlotBound()
    }

    function Kind(i: nat): Rejection {
      classify(attempt(i).tail)
    }

    function Backoff(i: nat): nat {
      Jittered(if Kind(i) == JobRace then RACE_BACKOFF else SLOT_BACKOFF, attempt(i).draw)
    }

    /** When attempt i begins, if all before it were retried. */
    function Begins(i: nat): int
      decreases i, 0
    {
      if i == 0 then start + gap else Checked(i - 1) + Backoff(i - 1) + attempt(i - 1).late
    }

    /** When its rejection is compared with the deadlines. */
    function Checked(i: nat): int
      decreases i, 1
    {
      Begins(i) + attempt(i).took
    }

    predicate Rejected(i: nat) {
      var a := attempt(i);
      !a.cancelled && !a.spawnError && a.exited
    }

    predicate Retried(i: nat) {
      Rejected(i) && match Kind(i)
        case JobRace => Checked(i) <= RaceDeadline()
        case Slots => Checked(i) <= SlotDeadline()
        case Fatal => false
    }
  }

  datatype Outcome =
    | Cancelled | SpawnFailed | Started
    | HostUnusable(tail: string) | NoSlots(tail: string) | Failed(tail: string)

  /** How the launch ends at an attempt that is not retried. */
  function Verdict(w: World, i: nat): Outcome {
    var a := w.attempt(i);
    if a.cancelled then Cancelled
    else if a.spawnError then SpawnFailed
    else if !a.exited then Started
    else match w.Kind(i)
      case JobRace => HostUnusable(a.tail)
      case Slots => NoSlots(a.tail)
      case Fatal => Failed(a.tail)
  }

  /** The most attempts there can be. */
  function MaxAttempts(w: World): nat {
    MaxAttemptsWithin(w.SlotBound())
  }

  function MaxAttemptsWithin(slotBound: nat): nat {
    RACE_GRACE / RACE_STEP + slotBound / SLOT_STEP + 3
  }

  // ---------- The bound ----------

  /** How many of the first n attempts were rejected for this reason. */
  function Count(w: World, n: nat, r: Rejection): nat {
    if n == 0 then 0 else Count(w, n - 1, r) + (if w.Kind(n - 1) == r then 1 else 0)
  }

  ghost predicate AllRetried(w: World, n: nat) {
    forall i: nat | i < n :: w.Retried(i)
  }

  lemma {:induction false} CountsAddUp(w: World, n: nat)
    requires AllRetried(w, n)
    ensures Count(w, n, JobRace) + Count(w, n, Slots) == n
  {
    if n > 0 {
      assert w.Retried(n - 1);
      CountsAddUp(w, n - 1);
    }
  }

  lemma RetryCosts(w: World, i: nat)
    requires w.Retried(i)
    ensures w.Begins(i) <= w.Checked(i)
    ensures w.Kind(i) == JobRace ==> w.Checked(i) <= w.RaceDeadline() && w.Begins(i + 1) >= w.Checked(i) + RACE_STEP
    ensures w.Kind(i) != JobRace ==>
      w.Kind(i) == Slots && w.Checked(i) <= w.SlotDeadline() && w.Begins(i + 1) >= w.Checked(i) + SLOT_STEP
  {
  }

  /** The least the first n attempts' backoffs add up to. */
  function Cost(w: World, n: nat): nat {
    if n == 0 then 0 else Cost(w, n - 1) + (if w.Kind(n - 1) == JobRace then RACE_STEP else SLOT_STEP)
  }

  lemma {:induction false} TimePasses(w: World, n: nat)
    requires AllRetried(w, n)
    ensures w.Begins(n) >= w.Begins(0) + Cost(w, n)
  {
    if n > 0 {
      RetryCosts(w, n - 1);
      TimePasses(w, n - 1);
    }
  }

  lemma {:induction false} CostOfCounts(w: World, n: nat)
    ensures Cost(w, n) >= Count(w, n, JobRace) * RACE_STEP && Cost(w, n) >= Count(w, n, Slots) * SLOT_STEP
  {
    if n > 0 {
      CostOfCounts(w, n - 1);
    }
  }

  lemma FitsOnce(count: nat, step: nat, room: nat)
    requires step > 0 && count * step <= room
    ensures count <= room / step
  {
    if count > room / step {
      TimesGrows(room / step + 1, count, step);
    }
  }

  lemma TimesGrows(a: nat, b: nat, step: nat)
    requires a <= b
    ensures a * step <= b * step
  {
  }

  /** What the deadline of a retry says about the retries before it. */
  lemma RetryInTime(w: World, n: nat)
    requires n > 0 && AllRetried(w, n)
    ensures w.Kind(n - 1) == JobRace ==> Cost(w, n - 1) <= RACE_GRACE
    ensures w.Kind(n - 1) != JobRace ==> Cost(w, n - 1) <= w.SlotBound()
  {
    TimePasses(w, n - 1);
    RetryCosts(w, n - 1);
  }

  /** No mix of rejections is retried longer than its own deadline allows. */
  lemma {:induction false} RetriesAreBounded(w: World, n: nat)
    requires AllRetried(w, n)
    ensures Count(w, n, JobRace) <= RACE_GRACE / RACE_STEP + 1
    ensures Count(w, n, Slots) <= w.SlotBound() / SLOT_STEP + 1
  {
    if n > 0 {
      RetriesAreBounded(w, n - 1);
      RetryInTime(w, n);
      CostOfCounts(w, n - 1);
      if w.Kind(n - 1) == JobRace {
        FitsOnce(Count(w, n - 1, JobRace), RACE_STEP, RACE_GRACE);
      } else {
        FitsOnce(Count(w, n - 1, Slots), SLOT_STEP, w.SlotBound());
      }
    }
  }

  /** In numbers: a race is retried at most 41 times, and a shortage once more than there are
      seconds in the slot bound. */
  lemma SoManyRetries(w: World, n: nat)
    requires AllRetried(w, n)
    ensures Count(w, n, JobRace) <= 41
    ensures Count(w, n, Slots) <= (if w.slotRetry > 0 then w.slotRetry else 300_000_000_000) / 1_000_000_000 + 1
  {
    RetriesAreBounded(w, n);
  }

  lemma AttemptsAreBounded(w: World, n: nat)
    requires AllRetried(w, n)
    ensures n + 1 <= MaxAttempts(w)
  {
    RetriesAreBounded(w, n);
    CountsAddUp(w, n);
  }

  // ---------- The launch ----------

  /** The attempt a launch ended at: a cancelled one spawns nothing. */
  function LastAttempt(outcome: Outcome, spawns: nat): int {
    if outcome == Cancelled then spawns else spawns - 1
  }

  /** The launch ends, at the first attempt that is not retried, within the bound; what
      that attempt met decides how. */
  method Start(w: World) returns (outcome: Outcome, spawns: nat)
    ensures spawns <= MaxAttempts(w) && LastAttempt(outcome, spawns) >= 0
    ensures AllRetried(w, LastAttempt(outcome, spawns)) && !w.Retried(LastAttempt(outcome, spawns))
    ensures outcome == Verdict(w, LastAttempt(outcome, spawns))
  {
    var clock := w.start;
    var raceDeadline := clock + RACE_GRACE;
    clock := clock + w.gap;
    var slotBound := if w.slotRetry <= 0 then DEFAULT_SLOT_RETRY else w.slotRetry;
    var slotDeadline := clock + slotBound;
    spawns := 0;
    while true
      invariant AllRetried(w, spawns) && clock == w.Begins(spawns)
      decreases MaxAttempts(w) - spawns
    {
      ghost var last := spawns;
      AttemptsAreBounded(w, last);
      var a := w.attempt(spawns);
      if a.cancelled {
        return Cancelled, spawns;
      }
      spawns := spawns + 1;
      if a.spawnError {
        return SpawnFailed, spawns;
      }
      clock := clock + a.took;
      if !a.exited {
        return Started, spawns;
      }
      match w.classify(a.tail) {
        case JobRace =>
          if clock > raceDeadline {
            return HostUnusable(a.tail), spawns;
          }
          clock := clock + Jittered(RACE_BACKOFF, a.draw) + a.late;
        case Slots =>
          if clock > slotDeadline {
            return NoSlots(a.tail), spawns;
          }
          clock := clock + Jittered(SLOT_BACKOFF, a.draw) + a.late;
        case Fatal =>
          return Failed(a.tail), spawns;
      }
      assert w.Retried(last);
    }
  }

  // ---------- What a rejection has to say ----------

  /** The phrase stands somewhere in the text, in letters of either case. */
  ghost predicate Says(text: string, phrase: string) {
    exists i :: StandsAt(text, phrase, i)
  }

  ghost predicate StandsAt(text: string, phrase: string, i: int) {
    0 <= i <= |text| - |phrase| && forall k | i <= k < i + |phrase| :: Lower(text[k]) == phrase[k - i]
  }

  ghost predicate ExactlyAt(s: string, sub: string, i: int) {
    0 <= i <= |s| - |sub| && s[i..i + |sub|] == sub
  }

  lemma {:induction false} ContainsIff(s: string, sub: string)
    ensures Contains(s, sub) <==> exists i :: ExactlyAt(s, sub, i)
  {
    if sub <= s {
      assert ExactlyAt(s, sub, 0);
    } else if s != "" {
      ContainsIff(s[1..], sub);
      if i :| ExactlyAt(s[1..], sub, i) {
        assert s[i + 1..i + 1 + |sub|] == s[1..][i..i + |sub|];
        assert ExactlyAt(s, sub, i + 1);
      }
      if i :| ExactlyAt(s, sub, i) {
        assert i != 0;
        assert s[i..i + |sub|] == s[1..][i - 1..i - 1 + |sub|];
        assert ExactlyAt(s[1..], sub, i - 1);
      }
    }
  }

  lemma LoweredIff(text: string, phrase: string, i: int)
    ensures ExactlyAt(ToLower(text), phrase, i) <==> StandsAt(text, phrase, i)
  {
    var s := ToLower(text);
    if 0 <= i <= |text| - |phrase| {
      var part := s[i..i + |phrase|];
      assert forall k | 0 <= k < |part| :: part[k] == s[i + k];
      assert forall k | i <= k < i + |phrase| :: s[k] == Lower(text[k]) == part[k - i];
    }
  }

  lemma SaysIff(text: string, phrase: string)
    ensures Contains(ToLower(text), phrase) <==> Says(text, phrase)
  {
    ContainsIff(ToLower(text), phrase);
    if i :| ExactlyAt(ToLower(text), phrase, i) {
      LoweredIff(text, phrase, i);
    }
    if i :| StandsAt(text, phrase, i) {
      LoweredIff(text, phrase, i);
    }
  }

  /** What qrsh says when its environment or the job's is not what it should be. */
  ghost predicate Misconfigured(text: string) {
    || Says(text, "not set in environment") || Says(text, "missing \"sge_task_id\"") || Says(text, "missing \"job_id\"")
  }

  /** A misconfiguration is fatal, whatever else is said; a shortage of slots waits for them;
      anything else counts as the race with the job's start. */
  lemma ClassifyIs(text: string)
    ensures Classify(text) ==
      if Misconfigured(text) then Fatal else if Says(text, "no suitable queues") then Slots else JobRace
  {
    SaysIff(text, "not set in environment");
    SaysIff(text, "missing \"sge_task_id\"");
    SaysIff(text, "missing \"job_id\"");
    SaysIff(text, "no suitable queues");
  }

  /** Until when a rejected attempt is repeated: a race for ten seconds from the start, a
      shortage of slots for as long as configured, five minutes if nothing is, a
      misconfiguration never. */
  lemma RetriedIff(w: World, n: nat)
    requires w.classify == Classifier()
    ensures var a := w.attempt(n);
      w.Retried(n) <==>
      && !a.cancelled && !a.spawnError && a.exited && !Misconfigured(a.tail)
      && w.Checked(n) <= if Says(a.tail, "no suitable queues")
                         then w.start + w.gap + (if w.slotRetry > 0 then w.slotRetry else 300_000_000_000)
                         else w.start + 10_000_000_000
  {
    ClassifyIs(w.attempt(n).tail);
  }

  /** A host is called unusable only for a rejection that names neither missing slots nor
      a misconfiguration, and only once the race grace is over. */
  lemma HostIsBlamedOnlyForRaces(w: World, n: nat)
    requires w.classify == Classifier() && !w.Retried(n) && Verdict(w, n).HostUnusable?
    ensures var t := w.attempt(n).tail;
      !Says(t, "no suitable queues") && !Misconfigured(t) && w.Checked(n) > w.start + 10_000_000_000
  {
    ClassifyIs(w.attempt(n).tail);
    assert w.Rejected(n);
  }

  /** Missing slots are given up only past the slot bound; a misconfiguration at once. */
  lemma SlotsAreGivenTheirTime(w: World, n: nat)
    requires w.classify == Classifier() && !w.Retried(n) && Verdict(w, n).NoSlots?
    ensures Says(w.attempt(n).tail, "no suitable queues") && !Misconfigured(w.attempt(n).tail)
    ensures w.Checked(n) > w.start + w.gap + w.SlotBound()
  {
    ClassifyIs(w.attempt(n).tail);
    assert w.Rejected(n);
  }

  /** The first attempt that starts is the end of it: no second stepper on the host. */
  lemma StartedOnce(w: World, n: nat)
    requires AllRetried(w, n) && !w.Retried(n) && Verdict(w, n) == Started
    ensures forall i: nat | i < n :: w.attempt(i).exited
  {
    forall i: nat | i < n
      ensures w.attempt(i).exited
    {
      assert w.Retried(i);
    }
  }
}
