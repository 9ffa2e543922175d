/**
 Jobs sharing a host: whatever jobs start and end there, the CPUs one job's tasks are
 pinned to are never another's.
 */
module SharedHost {
  import opened Text
  import opened CpuList
  import opened CpuBind
  import opened Spread

  /** A job on the host: its slots, at least one, and the CPUs it may use. */
  datatype Job = Job(slots: nat, host: Host)

  /** The host: the slots it offers its jobs together. */
  datatype Machine = Machine(slots: nat)

  datatype Event = Start(job: Job) | End(i: nat)

  function Slots(jobs: seq<Job>): (s: seq<int>)
    ensures |s| == |jobs|
  {
    seq(|jobs|, i requires 0 <= i < |jobs| => jobs[i].slots)
  }

  /** Two jobs bound by the scheduler are bound to different CPUs. */
  predicate MasksApart(a: Job, b: Job) {
    Restricted(a.host) && Restricted(b.host) ==> Elements(a.host.allowed) !! Elements(b.host.allowed)
  }

  /** What the scheduler lets happen: a job starts with at least one slot, within the
      host's slots, and with CPUs of its own if it binds jobs to CPUs. */
  predicate Enabled(m: Machine, jobs: seq<Job>, e: Event) {
    match e
    case Start(job) =>
      && job.slots >= 1 && Sum(Slots(jobs)) + job.slots <= m.slots
      && forall i | 0 <= i < |jobs| :: MasksApart(job, jobs[i])
    case End(i) => i < |jobs|
  }

  function Next(m: Machine, jobs: seq<Job>, e: Event): seq<Job>
    requires Enabled(m, jobs, e)
  {
    match e
    case Start(job) => jobs + [job]
    case End(i) => jobs[..i] + jobs[i + 1..]
  }

  predicate Feasible(m: Machine, es: seq<Event>)
    decreases |es|, 0
  {
    es == [] || (Feasible(m, es[..|es| - 1]) && Enabled(m, Run(m, es[..|es| - 1]), es[|es| - 1]))
  }

  function Run(m: Machine, es: seq<Event>): seq<Job>
    requires Feasible(m, es)
    decreases |es|, 1
  {
    if es == [] then [] else Next(m, Run(m, es[..|es| - 1]), es[|es| - 1])
  }

  ghost predicate Valid(m: Machine, jobs: seq<Job>) {
    && (forall i | 0 <= i < |jobs| :: jobs[i].slots >= 1)
    && Sum(Slots(jobs)) <= m.slots
    && forall i, j | 0 <= i < |jobs| && 0 <= j < |jobs| && i != j :: MasksApart(jobs[i], jobs[j])
  }

  lemma {:induction false} SumWithout(jobs: seq<Job>, i: nat)
    requires i < |jobs|
    ensures Sum(Slots(jobs[..i] + jobs[i + 1..])) == Sum(Slots(jobs)) - jobs[i].slots
  {
    var n := |jobs| - 1;
    var rest := jobs[..i] + jobs[i + 1..];
    assert Slots(jobs)[..n] == Slots(jobs[..n]);
    if i < n {
      SumWithout(jobs[..n], i);
      assert rest[..n - 1] == jobs[..n][..i] + jobs[..n][i + 1..];
      assert Slots(rest)[..n - 1] == Slots(rest[..n - 1]);
    } else {
      assert rest == jobs[..n];
    }
  }

  lemma StartKeepsValid(m: Machine, jobs: seq<Job>, job: Job)
    requires Valid(m, jobs) && Enabled(m, jobs, Start(job))
    ensures Valid(m, jobs + [job])
  {
    assert Slots(jobs + [job]) == Slots(jobs) + [job.slots];
    SumSnoc(Slots(jobs), job.slots);
    forall i | 0 <= i < |jobs|
      ensures MasksApart(jobs[i], job)
    {
      assert MasksApart(job, jobs[i]);
    }
  }

  lemma EndKeepsValid(m: Machine, jobs: seq<Job>, i: nat)
    requires Valid(m, jobs) && i < |jobs|
    ensures Valid(m, jobs[..i] + jobs[i + 1..])
  {
    SumWithout(jobs, i);
    var rest := jobs[..i] + jobs[i + 1..];
    assert forall k | 0 <= k < |rest| :: rest[k] == jobs[if k < i then k else k + 1];
  }

  lemma StepKeepsValid(m: Machine, jobs: seq<Job>, e: Event)
    requires Valid(m, jobs) && Enabled(m, jobs, e)
    ensures Valid(m, Next(m, jobs, e))
  {
    match e {
      case Start(job) => StartKeepsValid(m, jobs, job);
      case End(i) => EndKeepsValid(m, jobs, i);
    }
  }

  lemma {:induction false} RunIsValid(m: Machine, es: seq<Event>)
    requires Feasible(m, es)
    ensures Valid(m, Run(m, es))
  {
    if es == [] {
      assert Slots([]) == [];
    } else {
      RunIsValid(m, es[..|es| - 1]);
      StepKeepsValid(m, Run(m, es[..|es| - 1]), es[|es| - 1]);
    }
  }

  lemma {:induction false} TwoOfSum(jobs: seq<Job>, i: nat, j: nat)
    requires i < |jobs| && j < |jobs| && i != j
    ensures jobs[i].slots + jobs[j].slots <= Sum(Slots(jobs))
  {
    var n := |jobs| - 1;
    assert Slots(jobs)[..n] == Slots(jobs[..n]);
    if i < n && j < n {
      TwoOfSum(jobs[..n], i, j);
    } else {
      OneOfSum(jobs[..n], if i < n then i else j);
    }
  }

  lemma {:induction false} OneOfSum(jobs: seq<Job>, i: nat)
    requires i < |jobs|
    ensures jobs[i].slots <= Sum(Slots(jobs))
  {
    var n := |jobs| - 1;
    assert Slots(jobs)[..n] == Slots(jobs[..n]);
    if i < n {
      OneOfSum(jobs[..n], i);
    } else {
      AllOfSum(jobs[..n]);
    }
  }

  lemma {:induction false} AllOfSum(jobs: seq<Job>)
    ensures Sum(Slots(jobs)) >= 0
  {
    if jobs != [] {
      assert Slots(jobs)[..|jobs| - 1] == Slots(jobs[..|jobs| - 1]);
      AllOfSum(jobs[..|jobs| - 1]);
    }
  }

  /** What a job's stepper knows it holds: its slots, and the host's. */
  function HoldingOf(m: Machine, job: Job): Holding {
    Holding(job.slots, m.slots)
  }

  /** A task of some step of the job, in auto mode, whatever the step's cpusets: the CPUs
      it is pinned to, none when it is not pinned. */
  ghost predicate PinnedTo(m: Machine, job: Job, cpus: set<int>) {
    exists positions, lists, warned, t ::
      && Resolved(Auto, positions, job.host, HoldingOf(m, job), lists, warned)
      && 0 <= t < |lists|
      && cpus == (if lists[t] == "" then {} else if Cpus(lists[t]).Some? then Cpus(lists[t]).value else {})
  }

  /** A task is pinned only within its job's CPUs, and only where its job may pin. */
  lemma PinnedWithin(m: Machine, job: Job, cpus: set<int>)
    requires PinnedTo(m, job, cpus) && AllCpus(job.host.allowed) && cpus != {}
    ensures cpus <= Elements(job.host.allowed) && ShouldPin(Auto, job.host, HoldingOf(m, job))
  {
    var positions, lists, warned, t :|
      && Resolved(Auto, positions, job.host, HoldingOf(m, job), lists, warned)
      && 0 <= t < |lists|
      && cpus == (if lists[t] == "" then {} else if Cpus(lists[t]).Some? then Cpus(lists[t]).value else {});
    assert Selects(positions[t], job.host.allowed, lists[t]);
    forall c | c in cpus
      ensures c in Elements(job.host.allowed)
    {
      assert Picks(job.host.allowed, Cpus(positions[t]).value, cpus);
    }
  }

  /** On every run of a host with known slots: two jobs' pinned CPUs are disjoint. */
  lemma PinningNeverCrossesJobs(m: Machine, es: seq<Event>, i: nat, j: nat, a: set<int>, b: set<int>)
    requires Feasible(m, es) && m.slots > 0 && i != j && i < |Run(m, es)| && j < |Run(m, es)|
    requires AllCpus(Run(m, es)[i].host.allowed) && AllCpus(Run(m, es)[j].host.allowed)
    requires PinnedTo(m, Run(m, es)[i], a) && PinnedTo(m, Run(m, es)[j], b)
    ensures a !! b
  {
    var jobs := Run(m, es);
    RunIsValid(m, es);
    if a != {} && b != {} {
      PinnedWithin(m, jobs[i], a);
      PinnedWithin(m, jobs[j], b);
      TwoOfSum(jobs, i, j);
      assert MasksApart(jobs[i], jobs[j]);
      assert forall x | x in a && x in b :: x in Elements(jobs[i].host.allowed) && x in Elements(jobs[j].host.allowed);
    }
  }

  lemma LoneJob(m: Machine, es: seq<Event>, i: nat)
    requires Feasible(m, es) && i < |Run(m, es)| && Run(m, es)[i].slots == m.slots
    ensures |Run(m, es)| == 1
  {
    var jobs := Run(m, es);
    RunIsValid(m, es);
    if |jobs| > 1 {
      TwoOfSum(jobs, i, if i == 0 then 1 else 0);
    }
  }

  /** A job that has all the slots of its host is alone there, and its tasks are pinned in auto
      mode wherever they fit, each to CPUs of its own, though nothing confines the job. */
  lemma WholeHostIsPinned(m: Machine, es: seq<Event>, i: nat, n: nat, cpt: nat, lists: seq<string>, warned: bool)
    requires Feasible(m, es) && i < |Run(m, es)| && Run(m, es)[i].slots == m.slots
    requires var allowed := Run(m, es)[i].host.allowed;
      AllCpus(allowed) && Distinct(allowed) && cpt >= 1 && 0 < |allowed| <= MAX_INT && n * cpt <= |allowed|
    requires Resolved(Auto, Positions(n, cpt), Run(m, es)[i].host, HoldingOf(m, Run(m, es)[i]), lists, warned)
    ensures |Run(m, es)| == 1 && |lists| == n && PinnedApart(lists, Run(m, es)[i].host.allowed, cpt)
  {
    var job := Run(m, es)[i];
    LoneJob(m, es, i);
    RunIsValid(m, es);
    OneOfSum(Run(m, es), i);
    NodeIsPinnedIff(Auto, job.host, HoldingOf(m, job), n, cpt, lists, warned);
    PinningNeverCollides(lists, job.host.allowed, cpt);
  }
}
