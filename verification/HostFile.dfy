/**
 The granted hosts of a job, read twice: from the host file inside the job, where a
 host granted in several queues is one host with its slots added up, and from the
 scheduler's job list outside it.
 */
module HostFile {
  import opened Text

  /** A granted host: its names, its slots, and the queue of its first line. */
  datatype Host = Host(name: string, fqdn: string, slots: nat, instance: string, queue: string, range: string)

  datatype Line = Blank | Malformed | Grant(host: Host)

  datatype Result<+T> = Ok(value: T) | Err

  /** The name up to its domain. */
  function Short(name: string): string {
    var dot := IndexOf(name, '.');
    if dot >= 0 then name[..dot] else name
  }

  function ParseLine(raw: string): Line {
    var fields := Fields(raw);
    if |fields| == 0 then Blank
    else if |fields| < 2 then Malformed
    else
      var slots := Atoi(fields[1]);
      if slots.None? || slots.value < 0 then Malformed
      else
        var instance := if |fields| >= 3 then fields[2] else "";
        var at := IndexOf(instance, '@');
        Grant(Host(Short(fields[0]), fields[0], slots.value, instance, if at >= 0 then instance[..at] else instance,
                   if |fields| >= 4 then fields[3] else ""))
  }

  // ---------- Merging ----------

  function Names(hosts: seq<Host>): (r: seq<string>)
    ensures |r| == |hosts|
  {
    seq(|hosts|, i requires 0 <= i < |hosts| => hosts[i].name)
  }

  /** The position of a name, |hosts| when it is not there. */
  function Position(hosts: seq<Host>, name: string): (i: nat)
    ensures i <= |hosts| && (i < |hosts| ==> hosts[i].name == name) && forall j | 0 <= j < i :: hosts[j].name != name
  {
    if hosts == [] || hosts[0].name == name then 0 else 1 + Position(hosts[1..], name)
  }

  /** One more grant: a new host, or more slots for one already seen. */
  function Merge(hosts: seq<Host>, g: Host): seq<Host> {
    var i := Position(hosts, g.name);
    if i < |hosts| then hosts[i := hosts[i].(slots := hosts[i].slots + g.slots)] else hosts + [g]
  }

  function MergeAll(grants: seq<Host>): seq<Host> {
    if grants == [] then [] else Merge(MergeAll(grants[..|grants| - 1]), grants[|grants| - 1])
  }

  /** The grants of the first n lines; none if one of them is malformed. */
  function Grants(lines: seq<Line>, n: nat): Result<seq<Host>>
    requires n <= |lines|
  {
    if n == 0 then Ok([])
    else
      var before := Grants(lines, n - 1);
      if before.Err? then Err
      else match lines[n - 1]
        case Blank => before
        case Malformed => Err
        case Grant(h) => Ok(before.value + [h])
  }

  function Parsed(texts: seq<string>): (r: seq<Line>)
    ensures |r| == |texts|
  {
    seq(|texts|, i requires 0 <= i < |texts| => ParseLine(texts[i]))
  }

  function HostsOf(text: string): Result<seq<Host>> {
    var lines := Parsed(Split(text, '\n'));
    var grants := Grants(lines, |lines|);
    if grants.Err? || grants.value == [] then Err else Ok(MergeAll(grants.value))
  }

  ghost predicate Indexed(hosts: seq<Host>, index: map<string, nat>) {
    && (forall name | name in index :: index[name] < |hosts| && hosts[index[name]].name == name)
    && (forall i | 0 <= i < |hosts| :: hosts[i].name in index && index[hosts[i].name] == i)
  }

  method AddGrant(hosts: seq<Host>, index: map<string, nat>, h: Host)
    returns (next: seq<Host>, nextIndex: map<string, nat>)
    requires Indexed(hosts, index)
    ensures next == Merge(hosts, h) && Indexed(next, nextIndex)
  {
    next, nextIndex := hosts, index;
    if h.name in index {
      KnownHost(hosts, h, index);
      var i := index[h.name];
      next := hosts[i := hosts[i].(slots := hosts[i].slots + h.slots)];
    } else {
      NewHost(hosts, h, index);
      nextIndex := index[h.name := |hosts|];
      next := hosts + [h];
    }
  }

  function LineParser(): string -> Line {
    (raw: string) => ParseLine(raw)
  }

  lemma GrantStep(lines: seq<Line>, n: nat, grants: seq<Host>, h: Host)
    requires n < |lines| && Grants(lines, n) == Ok(grants) && lines[n] == Grant(h)
    ensures Grants(lines, n + 1) == Ok(grants + [h]) && MergeAll(grants + [h]) == Merge(MergeAll(grants), h)
  {
    assert (grants + [h])[..|grants|] == grants;
  }

  /** The loop over the lines, each read by parse. */
  method ReadLines(texts: seq<string>, parse: string -> Line, ghost lines: seq<Line>)
    returns (r: Result<seq<Host>>, ghost grants: seq<Host>)
    requires |lines| == |texts| && forall i | 0 <= i < |texts| :: lines[i] == parse(texts[i])
    ensures r.Err? <==> Grants(lines, |texts|).Err?
    ensures r.Ok? ==> Grants(lines, |texts|) == Ok(grants) && r.value == MergeAll(grants)
  {
    var hosts: seq<Host> := [];
    var index: map<string, nat> := map[];
    grants := [];
    for n := 0 to |texts|
      invariant Grants(lines, n) == Ok(grants)
      invariant hosts == MergeAll(grants) && Indexed(hosts, index)
    {
      match parse(texts[n]) {
        case Blank =>
        case Malformed =>
          StaysMalformed(lines, n + 1);
          return Err, grants;
        case Grant(h) =>
          GrantStep(lines, n, grants, h);
          grants := grants + [h];
          hosts, index := AddGrant(hosts, index, h);
      }
    }
    return Ok(hosts), grants;
  }

  lemma KnownHost(hosts: seq<Host>, h: Host, index: map<string, nat>)
    requires Indexed(hosts, index) && h.name in index
    ensures var i := index[h.name];
      && i < |hosts| && Merge(hosts, h) == hosts[i := hosts[i].(slots := hosts[i].slots + h.slots)]
      && Indexed(Merge(hosts, h), index)
  {
    var i := index[h.name];
    var j := Position(hosts, h.name);
    assert hosts[i].name == h.name && j <= i && hosts[j].name in index;
  }

  lemma IndexHas(hosts: seq<Host>, index: map<string, nat>, j: nat)
    requires Indexed(hosts, index) && j < |hosts|
    ensures hosts[j].name in index
  {
  }

  lemma NewHost(hosts: seq<Host>, h: Host, index: map<string, nat>)
    requires Indexed(hosts, index) && h.name !in index
    ensures Merge(hosts, h) == hosts + [h] && Indexed(hosts + [h], index[h.name := |hosts|])
  {
    var j := Position(hosts, h.name);
    if j < |hosts| {
      IndexHas(hosts, index, j);
    }
  }

  lemma {:induction false} StaysMalformed(lines: seq<Line>, n: nat)
    requires n <= |lines| && Grants(lines, n).Err?
    ensures Grants(lines, |lines|).Err?
    decreases |lines| - n
  {
    if n < |lines| {
      StaysMalformed(lines, n + 1);
    }
  }

  method ParsePEHostfile(text: string) returns (r: Result<seq<Host>>)
    ensures r == HostsOf(text)
  {
    var texts := Split(text, '\n');
    ghost var grants;
    r, grants := ReadLines(texts, LineParser(), Parsed(texts));
    if r.Ok? {
      MergedNames(grants);
      FirstSeenEmpty(Names(grants));
      if |r.value| == 0 {
        return Err;
      }
    }
  }

  // ---------- First seen ----------

  /** The distinct names of a list, each where it is first seen. */
  function FirstSeen(names: seq<string>): seq<string> {
    if names == [] then []
    else
      var seen, last := FirstSeen(names[..|names| - 1]), names[|names| - 1];
      if last in seen then seen else seen + [last]
  }

  predicate Distinct(names: seq<string>) {
    forall i, j | 0 <= i < j < |names| :: names[i] != names[j]
  }

  lemma {:induction false} FirstSeenIs(names: seq<string>)
    ensures Distinct(FirstSeen(names)) && forall n :: n in FirstSeen(names) <==> n in names
  {
    if names != [] {
      FirstSeenIs(names[..|names| - 1]);
      assert names == names[..|names| - 1] + [names[|names| - 1]];
    }
  }

  lemma FirstSeenEmpty(names: seq<string>)
    ensures FirstSeen(names) == [] <==> names == []
  {
    FirstSeenIs(names);
    if names != [] {
      assert names[0] in FirstSeen(names);
    }
  }

  lemma {:induction false} PositionIs(hosts: seq<Host>, name: string)
    ensures Position(hosts, name) < |hosts| <==> name in Names(hosts)
  {
    if Position(hosts, name) < |hosts| {
      assert Names(hosts)[Position(hosts, name)] == name;
    } else {
      assert forall j | 0 <= j < |hosts| :: Names(hosts)[j] == hosts[j].name;
    }
  }

  /** Merging keeps one host per name, in first-seen order. */
  lemma {:induction false} MergedNames(grants: seq<Host>)
    ensures Names(MergeAll(grants)) == FirstSeen(Names(grants))
  {
    if grants != [] {
      var init, g := grants[..|grants| - 1], grants[|grants| - 1];
      MergedNames(init);
      PositionIs(MergeAll(init), g.name);
      assert Names(grants)[..|grants| - 1] == Names(init);
      var i := Position(MergeAll(init), g.name);
      if i < |MergeAll(init)| {
        assert Names(Merge(MergeAll(init), g)) == Names(MergeAll(init));
      } else {
        assert Names(Merge(MergeAll(init), g)) == Names(MergeAll(init)) + [g.name];
      }
    }
  }

  /** The first grant of a name, with the slots of all its grants. */
  function Total(grants: seq<Host>, name: string): nat {
    if grants == [] then 0
    else
      Total(grants[..|grants| - 1], name) +
      (if grants[|grants| - 1].name == name then grants[|grants| - 1].slots else 0)
  }

  lemma {:induction false} TotalOfNone(grants: seq<Host>, name: string)
    requires name !in Names(grants)
    ensures Total(grants, name) == 0
  {
    if grants != [] {
      var n := |grants| - 1;
      assert Names(grants) == Names(grants[..n]) + [grants[n].name];
      TotalOfNone(grants[..n], name);
    }
  }

  /** A host's slots are all the slots it was granted; the rest is its first line's. */
  lemma {:induction false} MergedHost(grants: seq<Host>, i: nat)
    requires i < |MergeAll(grants)|
    ensures var h := MergeAll(grants)[i];
      h.slots == Total(grants, h.name) && exists g :: g in grants && g.name == h.name && h == g.(slots := h.slots)
  {
    var init, g := grants[..|grants| - 1], grants[|grants| - 1];
    var hosts := MergeAll(init);
    MergedNames(init);
    FirstSeenIs(Names(init));
    PositionIs(hosts, g.name);
    assert forall x | x in init :: x in grants;
    if i < |hosts| {
      MergedHost(init, i);
      var f :| f in init && f.name == hosts[i].name && hosts[i] == f.(slots := hosts[i].slots);
      if hosts[i].name == g.name {
        SamePosition(hosts, i, g.name);
      }
      assert MergeAll(grants)[i] == f.(slots := MergeAll(grants)[i].slots);
    } else {
      TotalOfNone(init, g.name);
      assert g == g.(slots := g.slots);
    }
  }

  lemma SamePosition(hosts: seq<Host>, i: nat, name: string)
    requires i < |hosts| && hosts[i].name == name && Distinct(Names(hosts))
    ensures Position(hosts, name) == i
  {
    assert forall k | 0 <= k < |hosts| :: Names(hosts)[k] == hosts[k].name;
  }

  // ---------- The scheduler's list ----------

  /** A granted slot as the job list names it: its host, or only its queue instance. */
  datatype Element = Element(host: string, instance: string)

  function FromInstance(instance: string): string {
    var at := IndexOf(instance, '@');
    if at >= 0 then instance[at + 1..] else ""
  }

  function HostOf(e: Element): string {
    var host := TrimSpace(e.host);
    Short(if host == "" then FromInstance(e.instance) else host)
  }

  /** The named hosts of the first n elements. */
  function Listed(elements: seq<Element>, n: nat): seq<string>
    requires n <= |elements|
  {
    if n == 0 then []
    else
      var host := HostOf(elements[n - 1]);
      Listed(elements, n - 1) + (if host == "" then [] else [host])
  }

  method GrantedHosts(elements: seq<Element>) returns (hosts: seq<string>)
    ensures hosts == FirstSeen(Listed(elements, |elements|))
  {
    hosts := [];
    for n := 0 to |elements|
      invariant hosts == FirstSeen(Listed(elements, n))
    {
      var host := HostOf(elements[n]);
      ghost var before := Listed(elements, n);
      if host != "" {
        assert (before + [host])[..|before|] == before;
        if host !in hosts {
          hosts := hosts + [host];
        }
      } else {
        assert before + [] == before;
      }
    }
  }

  // ---------- The texts ----------

  /** A word of a line. */
  ghost predicate Word(w: string) {
    w != "" && forall i | 0 <= i < |w| :: !IsSpace(w[i])
  }

  lemma {:induction false} FieldsOfWords(words: seq<string>)
    requires forall i | 0 <= i < |words| :: Word(words[i])
    ensures Fields(Join(words, " ")) == words
  {
    if |words| == 1 {
      FieldsAre(words[0], ' ', "", Spaces());
    } else if |words| > 1 {
      FieldsOfWords(words[1..]);
      FieldsAre(words[0], ' ', Join(words[1..], " "), Spaces());
    }
  }

  lemma {:induction false} FieldsOfBlanks(s: string)
    requires forall i | 0 <= i < |s| :: IsSpace(s[i])
    ensures Fields(s) == []
  {
    if s != "" {
      FieldsOfBlanks(s[1..]);
      FieldsAre("x", s[0], s[1..], Spaces());
      assert s == [s[0]] + s[1..];
    }
  }

  /** A host is known by its name up to the first dot. */
  lemma ShortIs(host: string, domain: string)
    requires '.' !in host
    ensures Short(host) == host && Short(host + "." + domain) == host
  {
    IndexOfFirst(host, '.', domain);
    assert (host + "." + domain)[..|host|] == host;
  }

  lemma NumberIsWord(n: nat)
    ensures Word(Itoa(n))
  {
  }

  /** "node1.dom 4 all.q@node1 0,1": a host of four slots, its queue what is in front of the '@'. */
  lemma FullLineIsRead(name: string, n: nat, queue: string, at: string, range: string)
    requires Word(name) && Word(queue + "@" + at) && Word(range) && '@' !in queue && n <= MAX_INT
    ensures ParseLine(Join([name, Itoa(n), queue + "@" + at, range], " "))
         == Grant(Host(Short(name), name, n, queue + "@" + at, queue, range))
  {
    NumberIsWord(n);
    AtoiOfItoa(n);
    FieldsOfWords([name, Itoa(n), queue + "@" + at, range]);
    IndexOfFirst(queue, '@', at);
    assert (queue + "@" + at)[..|queue|] == queue;
  }

  /** The queue and what follows it may be missing; a queue may stand without a host. */
  lemma ShortLineIsRead(name: string, n: nat, queue: string)
    requires Word(name) && Word(queue) && '@' !in queue && n <= MAX_INT
    ensures ParseLine(Join([name, Itoa(n)], " ")) == Grant(Host(Short(name), name, n, "", "", ""))
    ensures ParseLine(Join([name, Itoa(n), queue], " ")) == Grant(Host(Short(name), name, n, queue, queue, ""))
  {
    NumberIsWord(n);
    AtoiOfItoa(n);
    FieldsOfWords([name, Itoa(n)]);
    FieldsOfWords([name, Itoa(n), queue]);
  }

  /** A line of one word, or with no slot count, is malformed; one of blanks is skipped. */
  lemma BadLineIsRefused(name: string, slots: string, blanks: string)
    requires Word(name) && Word(slots) && (Atoi(slots).None? || Atoi(slots).value < 0)
    requires forall i | 0 <= i < |blanks| :: IsSpace(blanks[i])
    ensures ParseLine(name) == Malformed && ParseLine(Join([name, slots], " ")) == Malformed
    ensures ParseLine(blanks) == Blank
  {
    FieldsOfWords([name]);
    FieldsOfWords([name, slots]);
    FieldsOfBlanks(blanks);
  }

  lemma {:induction false} GrantsIff(lines: seq<Line>, n: nat)
    requires n <= |lines|
    ensures Grants(lines, n).Ok? <==> forall i | 0 <= i < n :: lines[i] != Malformed
    ensures Grants(lines, n).Ok? ==> (Grants(lines, n).value == [] <==> forall i | 0 <= i < n :: lines[i] == Blank)
  {
    if n > 0 {
      GrantsIff(lines, n - 1);
    }
  }

  /** A host file is read exactly if no line of it is malformed and some line grants a host. */
  lemma HostfileIsReadIff(text: string)
    ensures var lines := Parsed(Split(text, '\n'));
      HostsOf(text).Ok? <==>
      && (forall i | 0 <= i < |lines| :: lines[i] != Malformed)
      && exists i :: 0 <= i < |lines| && lines[i].Grant?
  {
    var lines := Parsed(Split(text, '\n'));
    GrantsIff(lines, |lines|);
    var granted := Grants(lines, |lines|);
    if granted.Ok? && granted.value != [] {
      var i :| 0 <= i < |lines| && lines[i] != Blank;
      assert lines[i] != Malformed;
      assert lines[i].Grant?;
    } else if granted.Ok? {
      assert forall i | 0 <= i < |lines| :: lines[i] == Blank;
    }
  }

  /** A granted slot's host is the one named, or else the one behind the '@' of its queue. */
  lemma ElementHost(host: string, domain: string, queue: string)
    requires Word(host) && Word(domain) && '.' !in host && '@' !in queue
    ensures HostOf(Element(host + "." + domain, queue)) == host
    ensures HostOf(Element("", queue + "@" + host + "." + domain)) == host && HostOf(Element("", queue)) == ""
  {
    var name := host + "." + domain;
    ShortIs(host, domain);
    assert name[0] == host[0] && name[|name| - 1] == domain[|domain| - 1];
    assert TrimSpace(name) == name && TrimSpace("") == "";
    IndexOfFirst(queue, '@', name);
    assert queue + "@" + host + "." + domain == queue + ['@'] + name;
    assert (queue + ['@'] + name)[|queue| + 1..] == name;
    ShortIs("", "");
  }
}
