/**
 What an install leaves behind for uninstall: the record of the objects it meant
 to create, the PEs it added to queues and the site values it replaced; and the
 interpreter that applies a plan and reports what happened.
 */
module InstallRecord {
  import opened Text
  import opened Scheduler

  datatype PEListAdd = PEListAdd(queue: string, pe: string)

  /** One overwritten attribute: target is "queue <name>" or "pe <name>". */
  datatype Replaced = Replaced(target: string, attr: Attr, prev: string)

  datatype Record = Record(
    createdQueue: string, createdPE: string, createdComplex: string,
    peListAdds: seq<PEListAdd>, replaced: seq<Replaced>)

  /** No install has been recorded. */
  const EMPTY: Record := Record("", "", "", [], [])

  function QueueKey(name: string): string {
    "queue " + name
  }

  function PEKey(name: string): string {
    "pe " + name
  }

  lemma KeysDiffer(a: string, b: string)
    ensures QueueKey(a) == QueueKey(b) ==> a == b
    ensures PEKey(a) == PEKey(b) ==> a == b
    ensures QueueKey(a) != PEKey(b)
  {
    assert QueueKey(a)[6..] == a && QueueKey(b)[6..] == b;
    assert PEKey(a)[3..] == a && PEKey(b)[3..] == b;
    assert QueueKey(a)[0] == 'q' && PEKey(b)[0] == 'p';
  }

  /** The recorded old value of an attribute: the first one, None when there is none. */
  function OldOf(rs: seq<Replaced>, target: string, attr: Attr): Option<string> {
    if rs == [] then None
    else if rs[0].target == target && rs[0].attr == attr then Some(rs[0].prev)
    else OldOf(rs[1..], target, attr)
  }

  /** Every recorded old value of an object, in record order. */
  function AttrsOf(rs: seq<Replaced>, target: string): seq<Replaced> {
    if rs == [] then []
    else (if rs[0].target == target then [rs[0]] else []) + AttrsOf(rs[1..], target)
  }

  function Replace(st: Record, target: string, attr: Attr, prev: string): Record {
    if OldOf(st.replaced, target, attr).Some? then st
    else st.(replaced := st.replaced + [Replaced(target, attr, prev)])
  }

  function IntendOne(st: Record, ch: Change): Record {
    match ch.kind
    case AddQueue => st.(createdQueue := ch.target)
    case AddPE => st.(createdPE := ch.target)
    case AddComplex => st.(createdComplex := ch.target)
    case _ => st
  }

  /** The record once the objects a plan is about to create are named in it. */
  function Intend(st: Record, changes: seq<Change>): Record
    decreases |changes|
  {
    if changes == [] then st else Intend(IntendOne(st, changes[0]), changes[1..])
  }

  function RecordOne(st: Record, out: Outcome): Record {
    var ch := out.change;
    if !out.ok then st
    else match ch.kind
      case AddQueue => IntendOne(st, ch)
      case AddPE => IntendOne(st, ch)
      case AddComplex => IntendOne(st, ch)
      case AddToPEList =>
        var add := PEListAdd(ch.target, ch.next);
        if add in st.peListAdds then st else st.(peListAdds := st.peListAdds + [add])
      case SetStarter =>
        if ch.prev == "" then st else Replace(st, QueueKey(ch.target), StarterMethod, ch.prev)
      case SetPEAttr =>
        if ch.prev == "" then st else Replace(st, PEKey(ch.target), ch.attr, ch.prev)
      case _ => st
  }

  /** The record once an apply's report is folded into it. */
  function RecordAll(st: Record, outs: seq<Outcome>): Record
    decreases |outs|
  {
    if outs == [] then st else RecordAll(RecordOne(st, outs[0]), outs[1..])
  }

  lemma {:induction false} IntendSnoc(st: Record, changes: seq<Change>, ch: Change)
    ensures Intend(st, changes + [ch]) == IntendOne(Intend(st, changes), ch)
    decreases |changes|
  {
    if changes == [] {
      assert changes + [ch] == [ch];
      assert Intend(IntendOne(st, ch), [ch][1..]) == IntendOne(st, ch);
    } else {
      assert (changes + [ch])[1..] == changes[1..] + [ch];
      IntendSnoc(IntendOne(st, changes[0]), changes[1..], ch);
    }
  }

  lemma {:induction false} RecordSnoc(st: Record, outs: seq<Outcome>, out: Outcome)
    ensures RecordAll(st, outs + [out]) == RecordOne(RecordAll(st, outs), out)
    decreases |outs|
  {
    if outs == [] {
      assert outs + [out] == [out];
      assert RecordAll(RecordOne(st, out), [out][1..]) == RecordOne(st, out);
    } else {
      assert (outs + [out])[1..] == outs[1..] + [out];
      RecordSnoc(RecordOne(st, outs[0]), outs[1..], out);
    }
  }

  // ---------- What is recorded ----------

  /** The change overwrote a value of the site's: r says which. */
  predicate Overwrote(ch: Change, r: Replaced) {
    && ch.prev != "" && r.prev == ch.prev
    && ((ch.kind == SetStarter && r.target == QueueKey(ch.target) && r.attr == StarterMethod)
        || (ch.kind == SetPEAttr && r.target == PEKey(ch.target) && r.attr == ch.attr))
  }

  predicate Added(ch: Change, add: PEListAdd) {
    ch.kind == AddToPEList && add == PEListAdd(ch.target, ch.next)
  }

  lemma {:induction false} OldOfLonger(rs: seq<Replaced>, r: Replaced, target: string, attr: Attr)
    ensures OldOf(rs + [r], target, attr) ==
      if OldOf(rs, target, attr).Some? then OldOf(rs, target, attr)
      else if r.target == target && r.attr == attr then Some(r.prev) else None
  {
    if rs == [] {
      assert [] + [r] == [r];
    } else {
      assert (rs + [r])[1..] == rs[1..] + [r];
      OldOfLonger(rs[1..], r, target, attr);
    }
  }

  /** The first value recorded of an object's attribute is never lost, and one that a change
      overwrote is recorded if there was none. */
  lemma OneIsRecorded(st: Record, out: Outcome, r: Replaced)
    ensures OldOf(RecordOne(st, out).replaced, r.target, r.attr) ==
      if OldOf(st.replaced, r.target, r.attr).Some? then OldOf(st.replaced, r.target, r.attr)
      else if out.ok && Overwrote(out.change, r.(prev := out.change.prev)) then Some(out.change.prev)
      else None
  {
    var ch := out.change;
    KeysDiffer(ch.target, ch.target);
    OldOfLonger(st.replaced, Replaced(QueueKey(ch.target), StarterMethod, ch.prev), r.target, r.attr);
    OldOfLonger(st.replaced, Replaced(PEKey(ch.target), ch.attr, ch.prev), r.target, r.attr);
  }

  /** After a report: of every attribute of every object the value recorded is the one already
      there, or else the first non-empty one a successful change overwrote; nothing else is. */
  lemma {:induction false} FirstOverwrittenIsRecorded(st: Record, outs: seq<Outcome>, target: string, attr: Attr)
    ensures OldOf(st.replaced, target, attr).Some? ==>
      OldOf(RecordAll(st, outs).replaced, target, attr) == OldOf(st.replaced, target, attr)
    ensures OldOf(st.replaced, target, attr).None? ==>
      OldOf(RecordAll(st, outs).replaced, target, attr) == FirstOverwritten(outs, target, attr)
    decreases |outs|
  {
    if outs != [] {
      OneIsRecorded(st, outs[0], Replaced(target, attr, ""));
      FirstOverwrittenIsRecorded(RecordOne(st, outs[0]), outs[1..], target, attr);
    }
  }

  function FirstOverwritten(outs: seq<Outcome>, target: string, attr: Attr): Option<string> {
    if outs == [] then None
    else if outs[0].ok && Overwrote(outs[0].change, Replaced(target, attr, outs[0].change.prev))
      then Some(outs[0].change.prev)
    else FirstOverwritten(outs[1..], target, attr)
  }

  /** And of the pe_lists exactly the PEs that were added to them. */
  lemma {:induction false} AddsAreRecorded(st: Record, outs: seq<Outcome>, add: PEListAdd)
    ensures add in RecordAll(st, outs).peListAdds <==>
      add in st.peListAdds || exists i :: 0 <= i < |outs| && outs[i].ok && Added(outs[i].change, add)
    decreases |outs|
  {
    if outs != [] {
      AddsAreRecorded(RecordOne(st, outs[0]), outs[1..], add);
      assert add in RecordOne(st, outs[0]).peListAdds <==>
        add in st.peListAdds || (outs[0].ok && Added(outs[0].change, add));
      if i :| 0 <= i < |outs| && outs[i].ok && Added(outs[i].change, add) {
        assert i == 0 || outs[1..][i - 1] == outs[i];
      }
    }
  }

  /** The record under construction. */
  class State {
    var createdQueue: string
    var createdPE: string
    var createdComplex: string
    var peListAdds: seq<PEListAdd>
    var replaced: seq<Replaced>

    constructor ()
      ensures Value() == EMPTY
    {
      createdQueue, createdPE, createdComplex := "", "", "";
      peListAdds, replaced := [], [];
    }

    function Value(): (r: Record)
      reads this
    {
      Record(createdQueue, createdPE, createdComplex, peListAdds, replaced)
    }

    method IntendPlan(changes: seq<Change>)
      modifies this
      ensures Value() == Intend(old(Value()), changes)
    {
      for i := 0 to |changes|
        invariant Value() == Intend(old(Value()), changes[..i])
      {
        IntendSnoc(old(Value()), changes[..i], changes[i]);
        assert changes[..i + 1] == changes[..i] + [changes[i]];
        match changes[i].kind {
          case AddQueue => createdQueue := changes[i].target;
          case AddPE => createdPE := changes[i].target;
          case AddComplex => createdComplex := changes[i].target;
          case _ =>
        }
      }
      assert changes[..|changes|] == changes;
    }

    method ReplaceValue(target: string, attr: Attr, prev: string)
      modifies this
      ensures Value() == Replace(old(Value()), target, attr, prev)
    {
      if OldOf(replaced, target, attr).None? {
        replaced := replaced + [Replaced(target, attr, prev)];
      }
    }

    method RecordReport(outs: seq<Outcome>)
      modifies this
      ensures Value() == RecordAll(old(Value()), outs)
    {
      for i := 0 to |outs|
        invariant Value() == RecordAll(old(Value()), outs[..i])
      {
        RecordSnoc(old(Value()), outs[..i], outs[i]);
        assert outs[..i + 1] == outs[..i] + [outs[i]];
        var ch := outs[i].change;
        if outs[i].ok {
          match ch.kind {
            case AddQueue => createdQueue := ch.target;
            case AddPE => createdPE := ch.target;
            case AddComplex => createdComplex := ch.target;
            case AddToPEList =>
              var add := PEListAdd(ch.target, ch.next);
              if add !in peListAdds {
                peListAdds := peListAdds + [add];
              }
            case SetStarter =>
              if ch.prev != "" {
                ReplaceValue(QueueKey(ch.target), StarterMethod, ch.prev);
              }
            case SetPEAttr =>
              if ch.prev != "" {
                ReplaceValue(PEKey(ch.target), ch.attr, ch.prev);
              }
            case _ =>
          }
        }
      }
      assert outs[..|outs|] == outs;
    }
  }

  /** The scheduler's configuration, written through one call a change. A call
      fails when the scheduler rejects it, or for a reason of its own (fail). */
  class ClusterAdmin {
    var cluster: Cluster

    constructor (c: Cluster)
      ensures cluster == c
    {
      cluster := c;
    }

    method Submit(ch: Change, fail: bool) returns (ok: bool)
      requires Mutating(ch.kind)
      modifies this
      ensures ok == Succeeds(old(cluster), ch, fail)
      ensures cluster == Next(old(cluster), ch, fail)
    {
      if fail {
        return false;
      }
      var r := Perform(cluster, ch);
      if r.None? {
        return false;
      }
      cluster := r.value;
      return true;
    }
  }

  lemma {:induction false} AfterSnoc(c: Cluster, changes: seq<Change>, ch: Change, fails: seq<bool>)
    ensures var fail := |changes| < |fails| && fails[|changes|];
      && After(c, changes + [ch], fails) == Next(After(c, changes, fails), ch, fail)
      && Outcomes(c, changes + [ch], fails)
         == Outcomes(c, changes, fails) + [Outcome(ch, Succeeds(After(c, changes, fails), ch, fail))]
    decreases |changes|
  {
    if changes == [] {
      assert changes + [ch] == [ch];
      assert [ch][1..] == [];
    } else {
      assert (changes + [ch])[1..] == changes[1..] + [ch];
      AfterSnoc(Next(c, changes[0], Head(fails)), changes[1..], ch, Tail(fails));
    }
  }

  /** Performs a plan's changes one by one; a failure does not stop the others. */
  method Apply(a: ClusterAdmin, changes: seq<Change>, fails: seq<bool>) returns (outs: seq<Outcome>)
    modifies a
    ensures a.cluster == After(old(a.cluster), changes, fails)
    ensures outs == Outcomes(old(a.cluster), changes, fails)
  {
    outs := [];
    for i := 0 to |changes|
      invariant a.cluster == After(old(a.cluster), changes[..i], fails)
      invariant outs == Outcomes(old(a.cluster), changes[..i], fails)
    {
      AfterSnoc(old(a.cluster), changes[..i], changes[i], fails);
      assert changes[..i + 1] == changes[..i] + [changes[i]];
      var ok := true;
      if Mutating(changes[i].kind) {
        ok := a.Submit(changes[i], i < |fails| && fails[i]);
      }
      outs := outs + [Outcome(changes[i], ok)];
    }
    assert changes[..|changes|] == changes;
  }
}
