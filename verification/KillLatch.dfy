/**
 Signals against spawning ranks in the stepper. Ranks register one by one while
 forwarded signals and any number of terminate calls run beside them; everything the
 stepper does under its mutex is one step here, and a rank's pending delivery, done
 after the mutex is released, is a step of its own.
 */
module KillLatch {

  type Signal = int

  const NONE: Signal := 0
  const KILL: Signal := 9
  const TERM: Signal := 15

  /** A registered rank: the signals it got, in order, and one read from the latch when
      it registered and not yet delivered. */
  datatype Proc = Proc(rank: int, got: seq<Signal>, pending: Signal)

  /** A terminate call in flight: before its first stage, between the two, or done. */
  datatype Stage = Starting | Sleeping | Done

  datatype State = State(killSig: Signal, procs: seq<Proc>, stopped: bool, terminators: seq<Stage>)

  const INITIAL := State(NONE, [], false, [])

  // ---------- The steps ----------

  /** Whether a forwarded signal is latched: SIGKILL always, SIGTERM only as the first. */
  function Latched(killSig: Signal, sig: Signal): Signal {
    if sig == KILL || (sig == TERM && killSig == NONE) then sig else killSig
  }

  function Hit(p: Proc, sig: Signal): Proc {
    p.(got := p.got + [sig])
  }

  function HitAll(procs: seq<Proc>, sig: Signal): (r: seq<Proc>)
    ensures |r| == |procs|
  {
    seq(|procs|, i requires 0 <= i < |procs| => Hit(procs[i], sig))
  }

  function Forwarded(s: State, sig: Signal): State {
    s.(killSig := Latched(s.killSig, sig), procs := HitAll(s.procs, sig))
  }

  function Registered(s: State, rank: int): State {
    s.(procs := s.procs + [Proc(rank, [], s.killSig)])
  }

  function Delivered(s: State, i: nat): State
    requires i < |s.procs|
  {
    s.(procs := s.procs[i := Hit(s.procs[i], s.procs[i].pending).(pending := NONE)])
  }

  class Stepper {
    var procs: seq<Proc>
    var killSig: Signal
    var stopped: bool
    var terminators: seq<Stage>

    constructor ()
      ensures Value() == INITIAL
    {
      procs, killSig, stopped, terminators := [], NONE, false, [];
    }

    function Value(): State
      reads this
    {
      State(killSig, procs, stopped, terminators)
    }

    /** The part of spawn that runs under the mutex. */
    method Register(rank: int)
      modifies this
      ensures Value() == Registered(old(Value()), rank)
    {
      procs := procs + [Proc(rank, [], killSig)];
    }

    /** The rest of spawn: signal the new rank if a kill had been latched. */
    method Deliver(i: nat)
      requires i < |procs|
      modifies this
      ensures Value() == if old(procs[i].pending) != NONE then Delivered(old(Value()), i) else old(Value())
    {
      if procs[i].pending != NONE {
        procs := procs[i := Hit(procs[i], procs[i].pending).(pending := NONE)];
      }
    }

    method ForwardSignal(sig: Signal)
      modifies this
      ensures Value() == Forwarded(old(Value()), sig)
    {
      if sig == KILL || (sig == TERM && killSig == NONE) {
        killSig := sig;
      }
      var i := 0;
      while i < |procs|
        invariant 0 <= i <= |procs| == |old(procs)|
        invariant forall k | 0 <= k < i :: procs[k] == Hit(old(procs)[k], sig)
        invariant forall k | i <= k < |procs| :: procs[k] == old(procs)[k]
        invariant killSig == Latched(old(killSig), sig) && stopped == old(stopped) && terminators == old(terminators)
      {
        procs := procs[i := Hit(procs[i], sig)];
        i := i + 1;
      }
    }

    /** A terminating signal to the stepper itself: the first one starts a terminate. */
    method StopSelf()
      modifies this
      ensures Value() == Next(old(Value()), Stop)
    {
      if !stopped {
        stopped := true;
        terminators := terminators + [Starting];
      }
    }
  }

  /** One step of the stepper's threads. */
  datatype Event =
    | Register(rank: int)        // spawn registers a rank and reads the latch
    | Deliver(proc: nat)         // spawn delivers what it read
    | Forward(sig: Signal)       // srun forwards a signal
    | Stop                       // the stepper itself is signalled
    | ChannelLost                // srun is gone: the control reader terminates
    | TermStage(call: nat)       // a terminate call sends SIGTERM
    | KillStage(call: nat)       // and, killWait later, SIGKILL

  /** A step of a thread that is not there, or not at that point, does nothing. */
  function Next(s: State, e: Event): State {
    match e
    case Register(rank) => Registered(s, rank)
    case Deliver(i) => if i < |s.procs| && s.procs[i].pending != NONE then Delivered(s, i) else s
    case Forward(sig) => Forwarded(s, sig)
    case Stop => if s.stopped then s else s.(stopped := true, terminators := s.terminators + [Starting])
    case ChannelLost => s.(terminators := s.terminators + [Starting])
    case TermStage(j) =>
      if j < |s.terminators| && s.terminators[j] == Starting
      then Forwarded(s, TERM).(terminators := s.terminators[j := Sleeping]) else s
    case KillStage(j) =>
      if j < |s.terminators| && s.terminators[j] == Sleeping
      then Forwarded(s, KILL).(terminators := s.terminators[j := Done]) else s
  }

  /** The state after any sequence of steps. */
  function Run(es: seq<Event>): State {
    if es == [] then INITIAL else Next(Run(es[..|es| - 1]), es[|es| - 1])
  }

  // ---------- What was sent ----------

  /** The signal a step sends to every registered rank, if any. */
  function SentBy(s: State, e: Event): seq<Signal> {
    match e
    case Forward(sig) => [sig]
    case TermStage(j) => if j < |s.terminators| && s.terminators[j] == Starting then [TERM] else []
    case KillStage(j) => if j < |s.terminators| && s.terminators[j] == Sleeping then [KILL] else []
    case _ => []
  }

  /** All signals sent, by srun or by a terminate call, in order. */
  function Sent(es: seq<Event>): seq<Signal> {
    if es == [] then [] else Sent(es[..|es| - 1]) + SentBy(Run(es[..|es| - 1]), es[|es| - 1])
  }

  /** The strongest terminating signal of a history. */
  function Strongest(sent: seq<Signal>): Signal {
    if KILL in sent then KILL else if TERM in sent then TERM else NONE
  }

  lemma ForwardedIs(s: State, e: Event)
    ensures Next(s, e).killSig == if SentBy(s, e) == [] then s.killSig else Latched(s.killSig, SentBy(s, e)[0])
    ensures |SentBy(s, e)| <= 1 && |s.procs| <= |Next(s, e).procs|
    ensures SentBy(s, e) != [] ==> Next(s, e).procs == HitAll(s.procs, SentBy(s, e)[0])
  {
  }

  /** The latch is exactly the strongest terminating signal ever sent. */
  lemma {:induction false} LatchIsStrongest(es: seq<Event>)
    ensures Run(es).killSig == Strongest(Sent(es))
  {
    if es != [] {
      LatchIsStrongest(es[..|es| - 1]);
      ForwardedIs(Run(es[..|es| - 1]), es[|es| - 1]);
    }
  }

  function Strength(sig: Signal): nat {
    if sig == KILL then 2 else if sig == TERM then 1 else 0
  }

  /** So it only rises, whichever threads run: none, SIGTERM, SIGKILL. */
  lemma {:induction false} LatchOnlyRises(es: seq<Event>, n: nat)
    requires n <= |es|
    ensures Strength(Run(es[..n]).killSig) <= Strength(Run(es).killSig)
  {
    if n < |es| {
      var init := es[..|es| - 1];
      LatchOnlyRises(init, n);
      assert init[..n] == es[..n];
      ForwardedIs(Run(init), es[|es| - 1]);
    } else {
      assert es[..n] == es;
    }
  }

  // ---------- What each rank gets ----------

  /** What a rank that registered after the first joined signals is owed: the latch as
      it was then, and every signal since. */
  function Owed(sent: seq<Signal>, joined: nat): multiset<Signal>
    requires joined <= |sent|
  {
    var latch := Strongest(sent[..joined]);
    multiset(sent[joined..]) + (if latch == NONE then multiset{} else multiset{latch})
  }

  /** What it has, counting the delivery still to come. */
  function Has(p: Proc): multiset<Signal> {
    multiset(p.got) + (if p.pending == NONE then multiset{} else multiset{p.pending})
  }

  /** How many signals had been sent when rank i registered. */
  function Joined(es: seq<Event>, i: nat): (j: nat)
    requires i < |Run(es).procs|
    ensures j <= |Sent(es)|
    decreases |es|
  {
    var init := es[..|es| - 1];
    if i < |Run(init).procs| then Joined(init, i) else |Sent(init)|
  }

  lemma OwedGrows(sent: seq<Signal>, sig: Signal, joined: nat)
    requires joined <= |sent|
    ensures Owed(sent + [sig], joined) == Owed(sent, joined) + multiset{sig}
    ensures Owed(sent + [], joined) == Owed(sent, joined)
  {
    assert (sent + [sig])[..joined] == sent[..joined];
    assert (sent + [sig])[joined..] == sent[joined..] + [sig];
    assert sent + [] == sent;
  }

  lemma OwedAtFirst(sent: seq<Signal>, rank: int)
    ensures Owed(sent, |sent|) == Has(Proc(rank, [], Strongest(sent)))
  {
    assert sent[..|sent|] == sent;
  }

  lemma StepOfProc(s: State, e: Event, i: nat)
    requires i < |s.procs|
    ensures Has(Next(s, e).procs[i])
         == Has(s.procs[i]) + (if SentBy(s, e) == [] then multiset{} else multiset{SentBy(s, e)[0]})
  {
    ForwardedIs(s, e);
    if SentBy(s, e) == [] {
      QuietStep(s, e, i);
    } else {
      HitHas(s.procs, SentBy(s, e)[0], i);
    }
  }

  lemma HitHas(procs: seq<Proc>, sig: Signal, i: nat)
    requires i < |procs|
    ensures Has(HitAll(procs, sig)[i]) == Has(procs[i]) + multiset{sig}
  {
  }

  lemma QuietStep(s: State, e: Event, i: nat)
    requires i < |s.procs| && SentBy(s, e) == []
    ensures i < |Next(s, e).procs| && Has(Next(s, e).procs[i]) == Has(s.procs[i])
  {
    if e == Deliver(i) {
      DeliveredHas(s, i);
    } else {
      OthersStay(s, e, i);
    }
  }

  lemma OthersStay(s: State, e: Event, i: nat)
    requires i < |s.procs| && SentBy(s, e) == [] && e != Deliver(i)
    ensures i < |Next(s, e).procs| && Next(s, e).procs[i] == s.procs[i]
  {
  }

  lemma DeliveredHas(s: State, i: nat)
    requires i < |s.procs|
    ensures s.procs[i].pending != NONE ==> Has(Delivered(s, i).procs[i]) == Has(s.procs[i])
  {
  }

  lemma NewProc(s: State, e: Event, i: nat)
    requires |s.procs| <= i < |Next(s, e).procs|
    ensures Next(s, e).procs[i].got == [] && Next(s, e).procs[i].pending == s.killSig && SentBy(s, e) == []
  {
  }

  /** Every registered rank gets every signal sent since it registered, and the latch it
      found, each exactly once and nothing else. */
  lemma {:induction false} EveryRankGetsWhatItIsOwed(es: seq<Event>, i: nat)
    requires i < |Run(es).procs|
    ensures Has(Run(es).procs[i]) == Owed(Sent(es), Joined(es, i))
    decreases |es|
  {
    var init, e := es[..|es| - 1], es[|es| - 1];
    var s := Run(init);
    ForwardedIs(s, e);
    if i < |s.procs| {
      EveryRankGetsWhatItIsOwed(init, i);
      StepOfProc(s, e, i);
      OwedGrows(Sent(init), if SentBy(s, e) == [] then NONE else SentBy(s, e)[0], Joined(init, i));
    } else {
      NewProc(s, e, i);
      LatchIsStrongest(init);
      OwedAtFirst(Sent(init), Run(es).procs[i].rank);
      assert Sent(init) + [] == Sent(init);
    }
  }

  // ---------- Nothing escapes ----------

  lemma StrongestIsOwed(sent: seq<Signal>, joined: nat)
    requires joined <= |sent| && Strongest(sent) != NONE
    ensures Strongest(sent) in Owed(sent, joined)
  {
    assert sent == sent[..joined] + sent[joined..];
  }

  /** Every registered rank has the latched signal, SIGTERM or SIGKILL, as soon as its own
      pending delivery has run. */
  lemma EveryRankHasTheLatch(es: seq<Event>, i: nat)
    requires Run(es).killSig != NONE && i < |Run(es).procs| && Run(es).procs[i].pending == NONE
    ensures Run(es).killSig in Run(es).procs[i].got
  {
    LatchIsStrongest(es);
    EveryRankGetsWhatItIsOwed(es, i);
    StrongestIsOwed(Sent(es), Joined(es, i));
  }

  /** Once a SIGKILL has been sent, every rank, however late it registers, has it as soon
      as its own pending delivery has run. */
  lemma NoRankEscapesKill(es: seq<Event>, i: nat)
    requires KILL in Sent(es) && i < |Run(es).procs| && Run(es).procs[i].pending == NONE
    ensures KILL in Run(es).procs[i].got
  {
    LatchIsStrongest(es);
    EveryRankHasTheLatch(es, i);
  }

  lemma StageStep(s: State, e: Event, j: nat)
    requires j < |Next(s, e).terminators|
    ensures j >= |s.terminators| ==> Next(s, e).terminators[j] == Starting
    ensures j < |s.terminators| && Next(s, e).terminators[j] != s.terminators[j] ==>
      if s.terminators[j] == Starting then Next(s, e).terminators[j] == Sleeping && SentBy(s, e) == [TERM]
      else Next(s, e).terminators[j] == Done && s.terminators[j] == Sleeping && SentBy(s, e) == [KILL]
  {
  }

  /** A terminate call past a stage has sent that stage's signal. */
  lemma {:induction false} StagesSend(es: seq<Event>, j: nat)
    requires j < |Run(es).terminators|
    ensures Run(es).terminators[j] != Starting ==> TERM in Sent(es)
    ensures Run(es).terminators[j] == Done ==> KILL in Sent(es)
    decreases |es|
  {
    var init, e := es[..|es| - 1], es[|es| - 1];
    StageStep(Run(init), e, j);
    if j < |Run(init).terminators| {
      StagesSend(init, j);
    }
  }

  /** So after the second stage of any terminate call nothing the stepper starts survives:
      every rank registered by then or ever after is killed once delivery has run. */
  lemma TerminateIsFinal(es: seq<Event>, later: seq<Event>, j: nat, i: nat)
    requires j < |Run(es).terminators| && Run(es).terminators[j] == Done
    requires i < |Run(es + later).procs| && Run(es + later).procs[i].pending == NONE
    ensures KILL in Run(es + later).procs[i].got
  {
    StagesSend(es, j);
    SentGrows(es, later);
    NoRankEscapesKill(es + later, i);
  }

  lemma {:induction false} SentGrows(es: seq<Event>, later: seq<Event>)
    ensures forall sig | sig in Sent(es) :: sig in Sent(es + later)
  {
    if later == [] {
      assert es + later == es;
    } else {
      var init := later[..|later| - 1];
      SentGrows(es, init);
      assert (es + later)[..|es + later| - 1] == es + init;
    }
  }

  /** A rank that registers before any terminating signal is sent is not killed on
      registering: nothing is pending for it. */
  lemma {:induction false} QuietStart(es: seq<Event>, rank: int)
    requires TERM !in Sent(es) && KILL !in Sent(es)
    ensures var s := Run(es + [Register(rank)]); s.procs[|s.procs| - 1] == Proc(rank, [], NONE)
  {
    LatchIsStrongest(es);
    assert (es + [Register(rank)])[..|es|] == es;
  }

  // ---------- In order, and how often ----------

  /** A rank that registered before any terminating signal has got the signals sent since, in
      the order they were sent. */
  lemma {:induction false} SignalsInOrder(es: seq<Event>, i: nat)
    requires i < |Run(es).procs| && Strongest(Sent(es)[..Joined(es, i)]) == NONE
    ensures Run(es).procs[i].pending == NONE && Run(es).procs[i].got == Sent(es)[Joined(es, i)..]
    decreases |es|
  {
    var init, e := es[..|es| - 1], es[|es| - 1];
    var s, j := Run(init), Joined(es, i);
    ForwardedIs(s, e);
    if i < |s.procs| {
      assert Sent(es)[..j] == Sent(init)[..j];
      SignalsInOrder(init, i);
      assert Sent(es)[j..] == Sent(init)[j..] + SentBy(s, e);
      if SentBy(s, e) == [] && e != Deliver(i) {
        OthersStay(s, e, i);
      }
    } else {
      NewProc(s, e, i);
      LatchIsStrongest(init);
      assert Sent(es) == Sent(init) && Sent(init)[..j] == Sent(init);
    }
  }

  /** However often the stepper is signalled it terminates once for it; and once for each loss
      of the channel. */
  lemma {:induction false} TerminatedOnce(es: seq<Event>)
    ensures Run(es).stopped <==> Stop in es
    ensures |Run(es).terminators| == multiset(es)[ChannelLost] + (if Stop in es then 1 else 0)
  {
    if es != [] {
      var init, e := es[..|es| - 1], es[|es| - 1];
      TerminatedOnce(init);
      assert es == init + [e];
    }
  }
}
