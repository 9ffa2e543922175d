/**
 Grid Engine as the installer sees it: cluster queues, parallel environments and
 complexes, the change kinds an install plan is made of, and what the scheduler
 does with each change -- including when it rejects one.
 */
module Scheduler {
  import opened Text

  datatype PE = PE(
    name: string,
    slots: int,
    startProcArgs: string,  // the text NONE when unset
    stopProcArgs: string,
    allocationRule: string,
    controlSlaves: bool,
    jobIsFirstTask: bool,
    masterForksSlaves: bool,
    daemonForksSlaves: bool)

  datatype Queue = Queue(
    name: string,
    peList: seq<string>,            // default entry; NONE reads back as []
    peListOverrides: seq<string>,   // per-host entries, as "[host=a b]"
    starterMethod: string,          // "" when unset
    starterOverrides: seq<string>,
    complexValues: seq<string>,     // "name=value"
    settings: string)               // host list, slots, limits: copied by a clone, never read here

  datatype Complex = Complex(name: string, kind: string, requestable: string)

  datatype Cluster = Cluster(
    queues: map<string, Queue>,
    pes: map<string, PE>,
    complexes: map<string, Complex>)

  datatype ChangeKind =
    | AddPE | SetPEAttr | AddToPEList | SetStarter | AddComplex | AddQueue
    | RemoveFromPEList | DeleteQueue | DeletePE | DeleteComplex
    | Refused | Unchanged

  /** Grid Engine attribute names; Other is any the installer does not write. */
  datatype Attr =
    | NoAttr | Slots | StartProcArgs | StopProcArgs | AllocationRule | ControlSlaves
    | PEListAttr | StarterMethod | QueueRow | ComplexRow
    | Other(attrName: string)

  /** One planned change; pe carries the whole object of an AddPE. */
  datatype Change = Change(
    kind: ChangeKind, target: string, attr: Attr, prev: string, next: string, pe: Option<PE>)

  datatype Outcome = Outcome(change: Change, ok: bool)

  predicate Mutating(k: ChangeKind) {
    k != Refused && k != Unchanged
  }

  predicate MutatingPlan(changes: seq<Change>) {
    exists i :: 0 <= i < |changes| && Mutating(changes[i].kind)
  }

  predicate HasRefusal(changes: seq<Change>) {
    exists i :: 0 <= i < |changes| && changes[i].kind == Refused
  }

  /** The value Grid Engine takes for "unset". */
  function OrNone(v: string): (r: string)
    ensures r != ""
  {
    if v == "" then "NONE" else v
  }

  /** A single-valued attribute as it reads back: NONE is unset. */
  function FromNone(v: string): string {
    if EqualFold(v, "NONE") then "" else v
  }

  /** The separators of a per-host override entry. */
  predicate OverrideSep(c: char) {
    c == '[' || c == ']' || c == '=' || c == ' ' || c == ','
  }

  function OverrideSeps(): char -> bool {
    c => OverrideSep(c)
  }

  function OverrideWords(ov: string): seq<string> {
    FieldsFunc(ov, OverrideSeps())
  }

  /** Whether a job could get pe in q: by the default pe_list or a per-host one. */
  predicate Offers(q: Queue, pe: string) {
    pe in q.peList || exists i :: 0 <= i < |q.peListOverrides| && pe in OverrideWords(q.peListOverrides[i])
  }

  /** The complex a complex_values entry sets. */
  function ComplexName(entry: string): string {
    var i := IndexOf(entry, '=');
    if i < 0 then entry else entry[..i]
  }

  predicate NamesComplex(q: Queue, name: string) {
    exists i :: 0 <= i < |q.complexValues| && ComplexName(q.complexValues[i]) == name
  }

  /** qconf -mattr pe: None when the scheduler does not take the value. */
  function WithPEAttr(pe: PE, attr: Attr, value: string): Option<PE> {
    match attr
    case Slots =>
      var n := Atoi(value);
      if n.Some? && n.value >= 0 then Some(pe.(slots := n.value)) else None
    case StartProcArgs => Some(pe.(startProcArgs := value))
    case StopProcArgs => Some(pe.(stopProcArgs := value))
    case AllocationRule => Some(pe.(allocationRule := value))
    case ControlSlaves =>
      if EqualFold(value, "TRUE") then Some(pe.(controlSlaves := true))
      else if EqualFold(value, "FALSE") then Some(pe.(controlSlaves := false))
      else None
    case _ => None
  }

  function WithQueue(c: Cluster, q: Queue): Cluster {
    c.(queues := c.queues[q.name := q])
  }

  function WithPE(c: Cluster, pe: PE): Cluster {
    c.(pes := c.pes[pe.name := pe])
  }

  function Without(xs: seq<string>, x: string): seq<string> {
    if xs == [] then [] else (if xs[0] == x then [] else [xs[0]]) + Without(xs[1..], x)
  }

  function Including(xs: seq<string>, x: string): seq<string> {
    if x in xs then xs else xs + [x]
  }

  /** A new queue copied from src, offering nothing until it is wired. */
  function Clone(c: Cluster, src: string, name: string, complexValue: string): Queue {
    Queue(name, [], [], "", [], if complexValue == "" then [] else [complexValue],
          if src != "" && src in c.queues then c.queues[src].settings else "@allhosts")
  }

  /** What the scheduler does with a change; None when it rejects it. */
  function Perform(c: Cluster, ch: Change): Option<Cluster> {
    match ch.kind
    case AddPE =>
      if ch.pe.None? || ch.pe.value.name in c.pes then None else Some(WithPE(c, ch.pe.value))
    case SetPEAttr =>
      if ch.target !in c.pes then None
      else
        var pe := WithPEAttr(c.pes[ch.target], ch.attr, OrNone(ch.next));
        if pe.None? then None else Some(c.(pes := c.pes[ch.target := pe.value]))
    case AddToPEList =>
      if ch.target !in c.queues || ch.next !in c.pes then None
      else
        var q := c.queues[ch.target];
        Some(c.(queues := c.queues[ch.target := q.(peList := Including(q.peList, ch.next))]))
    case SetStarter =>
      if ch.target !in c.queues then None
      else
        var q := c.queues[ch.target];
        Some(c.(queues := c.queues[ch.target := q.(starterMethod := FromNone(OrNone(ch.next)))]))
    case AddComplex =>
      if ch.target in c.complexes then None
      else Some(c.(complexes := c.complexes[ch.target := Complex(ch.target, "BOOL", "FORCED")]))
    case AddQueue =>
      if ch.target in c.queues || (ch.prev != "" && ch.prev !in c.queues)
         || (ch.next != "" && ComplexName(ch.next) !in c.complexes) then None
      else Some(WithQueue(c, Clone(c, ch.prev, ch.target, ch.next)))
    case RemoveFromPEList =>
      if ch.target !in c.queues then None
      else
        var q := c.queues[ch.target];
        Some(c.(queues := c.queues[ch.target := q.(peList := Without(q.peList, ch.prev))]))
    case DeleteQueue =>
      if ch.target !in c.queues then None else Some(c.(queues := c.queues - {ch.target}))
    case DeletePE =>
      if ch.target !in c.pes || exists n :: n in c.queues && Offers(c.queues[n], ch.target) then None
      else Some(c.(pes := c.pes - {ch.target}))
    case DeleteComplex =>
      if ch.target !in c.complexes || exists n :: n in c.queues && NamesComplex(c.queues[n], ch.target) then None
      else Some(c.(complexes := c.complexes - {ch.target}))
    case Refused => Some(c)
    case Unchanged => Some(c)
  }

  /** Whether a change takes effect: it is not rejected and the call does not fail
      for a reason of its own (fail). Rows that change nothing never fail. */
  predicate Succeeds(c: Cluster, ch: Change, fail: bool) {
    !Mutating(ch.kind) || (!fail && Perform(c, ch).Some?)
  }

  function Next(c: Cluster, ch: Change, fail: bool): Cluster {
    if Succeeds(c, ch, fail) && Mutating(ch.kind) then Perform(c, ch).value else c
  }

  function Head(fails: seq<bool>): bool {
    fails != [] && fails[0]
  }

  function Tail(fails: seq<bool>): seq<bool> {
    if fails == [] then [] else fails[1..]
  }

  /** The cluster after a change list, the i-th call failing when fails[i]. */
  function After(c: Cluster, changes: seq<Change>, fails: seq<bool> := []): Cluster
    decreases |changes|
  {
    if changes == [] then c
    else After(Next(c, changes[0], Head(fails)), changes[1..], Tail(fails))
  }

  /** The report of a change list: one outcome a change, in order. */
  function Outcomes(c: Cluster, changes: seq<Change>, fails: seq<bool> := []): seq<Outcome>
    decreases |changes|
  {
    if changes == [] then []
    else [Outcome(changes[0], Succeeds(c, changes[0], Head(fails)))]
         + Outcomes(Next(c, changes[0], Head(fails)), changes[1..], Tail(fails))
  }

  predicate AllOk(outs: seq<Outcome>) {
    forall i | 0 <= i < |outs| :: outs[i].ok
  }

  /** A change list applies without a failure. */
  predicate Applies(c: Cluster, changes: seq<Change>) {
    AllOk(Outcomes(c, changes))
  }

  lemma {:induction false} AfterConcat(c: Cluster, a: seq<Change>, b: seq<Change>)
    ensures After(c, a + b) == After(After(c, a), b)
    ensures Outcomes(c, a + b) == Outcomes(c, a) + Outcomes(After(c, a), b)
    decreases |a|
  {
    if a == [] {
      assert a + b == b;
    } else {
      assert (a + b)[1..] == a[1..] + b;
      AfterConcat(Next(c, a[0], false), a[1..], b);
    }
  }

  lemma OneRow(c: Cluster, ch: Change)
    ensures After(c, [ch]) == Next(c, ch, false)
    ensures Applies(c, [ch]) <==> Succeeds(c, ch, false)
  {
    assert [ch][1..] == [];
    var outs := Outcomes(c, [ch]);
    assert Outcomes(Next(c, ch, false), [ch][1..], Tail([])) == [];
    assert outs == [Outcome(ch, Succeeds(c, ch, false))];
    assert Applies(c, [ch]) <==> outs[0].ok;
  }

  // ---------- What the installer reads ----------

  /** One reading of the cluster: every object once, in any order. */
  datatype Facts = Facts(queues: seq<Queue>, pes: seq<PE>, complexes: seq<Complex>)

  function FindQueue(qs: seq<Queue>, name: string): Option<Queue> {
    if qs == [] then None else if qs[0].name == name then Some(qs[0]) else FindQueue(qs[1..], name)
  }

  function FindPE(ps: seq<PE>, name: string): Option<PE> {
    if ps == [] then None else if ps[0].name == name then Some(ps[0]) else FindPE(ps[1..], name)
  }

  function FindComplex(cs: seq<Complex>, name: string): Option<Complex> {
    if cs == [] then None else if cs[0].name == name then Some(cs[0]) else FindComplex(cs[1..], name)
  }

  ghost predicate DistinctQueues(qs: seq<Queue>) {
    forall i, j | 0 <= i < j < |qs| :: qs[i].name != qs[j].name
  }

  ghost predicate DistinctPEs(ps: seq<PE>) {
    forall i, j | 0 <= i < j < |ps| :: ps[i].name != ps[j].name
  }

  /** Objects are kept under their own, non-empty names. */
  ghost predicate Named(c: Cluster) {
    && "" !in c.queues && "" !in c.pes
    && (forall n | n in c.queues :: c.queues[n].name == n)
    && (forall n | n in c.pes :: c.pes[n].name == n)
    && (forall n | n in c.complexes :: c.complexes[n].name == n)
  }

  /** f is a complete reading of c. */
  ghost predicate Lists(f: Facts, c: Cluster) {
    && DistinctQueues(f.queues)
    && DistinctPEs(f.pes)
    && (forall q | q in f.queues :: q.name in c.queues && c.queues[q.name] == q)
    && (forall n | n in c.queues :: c.queues[n] in f.queues)
    && (forall p | p in f.pes :: p.name in c.pes && c.pes[p.name] == p)
    && (forall n | n in c.pes :: c.pes[n] in f.pes)
    && (forall x | x in f.complexes :: x.name in c.complexes && c.complexes[x.name] == x)
    && (forall n | n in c.complexes :: c.complexes[n] in f.complexes)
  }

  lemma {:induction false} FoundQueue(qs: seq<Queue>, name: string)
    ensures FindQueue(qs, name).Some? ==> FindQueue(qs, name).value in qs && FindQueue(qs, name).value.name == name
    ensures FindQueue(qs, name).None? ==> forall q | q in qs :: q.name != name
  {
    if qs != [] && qs[0].name != name {
      FoundQueue(qs[1..], name);
      assert forall q | q in qs :: q == qs[0] || q in qs[1..];
    }
  }

  lemma {:induction false} FoundPE(ps: seq<PE>, name: string)
    ensures FindPE(ps, name).Some? ==> FindPE(ps, name).value in ps && FindPE(ps, name).value.name == name
    ensures FindPE(ps, name).None? ==> forall p | p in ps :: p.name != name
  {
    if ps != [] && ps[0].name != name {
      FoundPE(ps[1..], name);
      assert forall p | p in ps :: p == ps[0] || p in ps[1..];
    }
  }

  lemma {:induction false} FoundComplex(cs: seq<Complex>, name: string)
    ensures FindComplex(cs, name).Some? ==>
      FindComplex(cs, name).value in cs && FindComplex(cs, name).value.name == name
    ensures FindComplex(cs, name).None? ==> forall x | x in cs :: x.name != name
  {
    if cs != [] && cs[0].name != name {
      FoundComplex(cs[1..], name);
      assert forall x | x in cs :: x == cs[0] || x in cs[1..];
    }
  }

  /** Looking a name up in a reading is looking it up in the cluster. */
  lemma Reading(f: Facts, c: Cluster, name: string)
    requires Named(c) && Lists(f, c)
    ensures FindQueue(f.queues, name) == if name in c.queues then Some(c.queues[name]) else None
    ensures FindPE(f.pes, name) == if name in c.pes then Some(c.pes[name]) else None
    ensures FindComplex(f.complexes, name) == if name in c.complexes then Some(c.complexes[name]) else None
  {
    FoundQueue(f.queues, name);
    FoundPE(f.pes, name);
    FoundComplex(f.complexes, name);
  }
}
