/**
 Ordering a node's allowed CPUs one hardware thread per core first: a permutation in
 which no core is ahead of another by more than one thread until the other is used up.
 */
module CoreOrder {
  import opened CpuList
  import opened Spread

  /** The core of a CPU: its first sibling, or itself when unknown. */
  function Core(coreOf: map<int, int>, c: int): int {
    if c in coreOf then coreOf[c] else c
  }

  /** The CPUs of a core, in the order they are allowed. */
  function Threads(allowed: seq<int>, coreOf: map<int, int>, key: int): seq<int> {
    if allowed == [] then []
    else
      var n := |allowed| - 1;
      Threads(allowed[..n], coreOf, key) + (if Core(coreOf, allowed[n]) == key then [allowed[n]] else [])
  }

  /** The cores, in the order of their first allowed CPU. */
  function Keys(allowed: seq<int>, coreOf: map<int, int>): seq<int> {
    if allowed == [] then []
    else
      var n := |allowed| - 1;
      var keys, key := Keys(allowed[..n], coreOf), Core(coreOf, allowed[n]);
      if key in keys then keys else keys + [key]
  }

  /** Thread t of the first n cores that have one. */
  function Round(cores: seq<seq<int>>, t: nat, n: nat): seq<int>
    requires n <= |cores|
  {
    if n == 0 then []
    else Round(cores, t, n - 1) + (if t < |cores[n - 1]| then [cores[n - 1][t]] else [])
  }

  /** The first t threads of every core, round by round. */
  function Rounds(cores: seq<seq<int>>, t: nat): seq<int> {
    if t == 0 then [] else Rounds(cores, t - 1) + Round(cores, t - 1, |cores|)
  }

  function Cores(allowed: seq<int>, coreOf: map<int, int>): (r: seq<seq<int>>)
    ensures |r| == |Keys(allowed, coreOf)|
  {
    var keys := Keys(allowed, coreOf);
    seq(|keys|, i requires 0 <= i < |keys| => Threads(allowed, coreOf, keys[i]))
  }

  function Sizes(cores: seq<seq<int>>): (caps: seq<int>)
    ensures |caps| == |cores|
  {
    seq(|cores|, i requires 0 <= i < |cores| => |cores[i]|)
  }

  // ---------- What the cores are ----------

  lemma {:induction false} KeysAreCores(allowed: seq<int>, coreOf: map<int, int>)
    ensures Distinct(Keys(allowed, coreOf))
    ensures forall c | c in allowed :: Core(coreOf, c) in Keys(allowed, coreOf)
  {
    if allowed != [] {
      KeysAreCores(allowed[..|allowed| - 1], coreOf);
      assert allowed == allowed[..|allowed| - 1] + [allowed[|allowed| - 1]];
    }
  }

  lemma {:induction false} ThreadsAreOfCore(allowed: seq<int>, coreOf: map<int, int>, key: int)
    ensures forall c | c in Threads(allowed, coreOf, key) :: Core(coreOf, c) == key && c in allowed
    ensures (forall c | c in allowed :: Core(coreOf, c) != key) ==> Threads(allowed, coreOf, key) == []
  {
    if allowed != [] {
      ThreadsAreOfCore(allowed[..|allowed| - 1], coreOf, key);
    }
  }

  lemma ThreadsSnoc(s: seq<int>, c: int, coreOf: map<int, int>, key: int)
    ensures Threads(s + [c], coreOf, key) == Threads(s, coreOf, key) + (if Core(coreOf, c) == key then [c] else [])
  {
    assert (s + [c])[..|s|] == s;
  }

  /** Every allowed CPU is a thread of one core. */
  lemma {:induction false} CoresCoverAllowed(allowed: seq<int>, coreOf: map<int, int>)
    ensures Sum(Sizes(Cores(allowed, coreOf))) == |allowed|
  {
    if allowed != [] {
      var n := |allowed| - 1;
      var init, c := allowed[..n], allowed[n];
      var keys, key := Keys(init, coreOf), Core(coreOf, c);
      CoresCoverAllowed(init, coreOf);
      KeysAreCores(init, coreOf);
      var sizes := Sizes(Cores(init, coreOf));
      if key in keys {
        var j :| 0 <= j < |keys| && keys[j] == key;
        MoreThreads(allowed, coreOf, j);
        SumUpdate(sizes, j, sizes[j] + 1);
      } else {
        MoreCores(allowed, coreOf);
        SumSnoc(sizes, 1);
      }
    }
  }

  lemma MoreThreads(allowed: seq<int>, coreOf: map<int, int>, j: nat)
    requires allowed != []
    requires var keys := Keys(allowed[..|allowed| - 1], coreOf);
      j < |keys| && Distinct(keys) && keys[j] == Core(coreOf, allowed[|allowed| - 1])
    ensures var sizes := Sizes(Cores(allowed[..|allowed| - 1], coreOf));
      Sizes(Cores(allowed, coreOf)) == sizes[j := sizes[j] + 1]
  {
  }

  lemma MoreCores(allowed: seq<int>, coreOf: map<int, int>)
    requires allowed != [] && Core(coreOf, allowed[|allowed| - 1]) !in Keys(allowed[..|allowed| - 1], coreOf)
    ensures Sizes(Cores(allowed, coreOf)) == Sizes(Cores(allowed[..|allowed| - 1], coreOf)) + [1]
  {
    var init, key := allowed[..|allowed| - 1], Core(coreOf, allowed[|allowed| - 1]);
    KeysAreCores(init, coreOf);
    ThreadsAreOfCore(init, coreOf, key);
  }

  // ---------- Rounds deal threads out ----------

  /** The order so far: t whole rounds, and thread t of the first m cores. */
  function Dealing(cores: seq<seq<int>>, t: nat, m: nat): seq<int>
    requires m <= |cores|
  {
    Rounds(cores, t) + Round(cores, t, m)
  }

  lemma DealingStep(cores: seq<seq<int>>, t: nat, m: nat)
    requires m < |cores|
    ensures Dealing(cores, t, m + 1)
         == Dealing(cores, t, m) + (if t < |cores[m]| then [cores[m][t]] else [])
  {
  }

  lemma DealingRound(cores: seq<seq<int>>, t: nat)
    ensures Dealing(cores, t + 1, 0) == Dealing(cores, t, |cores|) == Rounds(cores, t + 1)
  {
  }

  lemma DealingSizeStep(cores: seq<seq<int>>, t: nat, m: nat)
    requires m < |cores|
    ensures |Dealing(cores, t, m + 1)| - |Dealing(cores, t, m)|
         == Sum(Dealt(Sizes(cores), t, m + 1)) - Sum(Dealt(Sizes(cores), t, m))
  {
    var c := Dealt(Sizes(cores), t, m);
    DealingStep(cores, t, m);
    DealtStep(Sizes(cores), t, m);
    SumUpdate(c, m, c[m] + 1);
  }

  /** Threads are dealt to positions as ranks are to nodes. */
  lemma {:induction false} DealingSize(cores: seq<seq<int>>, t: nat, m: nat)
    requires m <= |cores|
    ensures |Dealing(cores, t, m)| == Sum(Dealt(Sizes(cores), t, m))
    decreases t, m
  {
    var sizes := Sizes(cores);
    if m > 0 {
      DealingSize(cores, t, m - 1);
      DealingSizeStep(cores, t, m - 1);
    } else if t > 0 {
      DealingSize(cores, t - 1, |cores|);
      DealingRound(cores, t - 1);
      DealtRound(sizes, t - 1);
    } else {
      SumZeros(sizes);
    }
  }

  /** The cores of a node's allowed CPUs, as far as dealing them out is concerned. */
  ghost predicate OfCores(cores: seq<seq<int>>, keys: seq<int>, coreOf: map<int, int>) {
    && |cores| == |keys| && Distinct(keys)
    && forall i | 0 <= i < |cores| :: forall c | c in cores[i] :: Core(coreOf, c) == keys[i]
  }

  lemma CoresAreOfCores(allowed: seq<int>, coreOf: map<int, int>)
    ensures OfCores(Cores(allowed, coreOf), Keys(allowed, coreOf), coreOf)
  {
    KeysAreCores(allowed, coreOf);
    var keys := Keys(allowed, coreOf);
    forall i | 0 <= i < |keys|
      ensures forall c | c in Cores(allowed, coreOf)[i] :: Core(coreOf, c) == keys[i]
    {
      ThreadsAreOfCore(allowed, coreOf, keys[i]);
    }
  }

  lemma ThreadsStep(cores: seq<seq<int>>, keys: seq<int>, coreOf: map<int, int>, t: nat, m: nat, i: nat)
    requires OfCores(cores, keys, coreOf) && m < |cores| && i < |cores|
    ensures Threads(Dealing(cores, t, m + 1), coreOf, keys[i])
         == Threads(Dealing(cores, t, m), coreOf, keys[i]) + (if i == m && t < |cores[i]| then [cores[i][t]] else [])
  {
    DealingStep(cores, t, m);
    if t < |cores[m]| {
      ThreadsSnoc(Dealing(cores, t, m), cores[m][t], coreOf, keys[i]);
      assert cores[m][t] in cores[m];
    } else {
      assert Dealing(cores, t, m) + [] == Dealing(cores, t, m);
    }
  }

  /** The dealt prefix holds the first threads of core i, as many as its share of the deal. */
  ghost predicate Given(cores: seq<seq<int>>, keys: seq<int>, coreOf: map<int, int>, t: nat, m: nat, i: nat)
    requires |cores| == |keys| && m <= |cores| && i < |cores|
  {
    var n := Dealt(Sizes(cores), t, m)[i];
    0 <= n <= |cores[i]| && Threads(Dealing(cores, t, m), coreOf, keys[i]) == cores[i][..n]
  }

  lemma GivenFirst(cores: seq<seq<int>>, keys: seq<int>, coreOf: map<int, int>, i: nat)
    requires |cores| == |keys| && i < |cores|
    ensures Given(cores, keys, coreOf, 0, 0, i)
  {
    assert Dealing(cores, 0, 0) == [];
  }

  lemma GivenNextRound(cores: seq<seq<int>>, keys: seq<int>, coreOf: map<int, int>, t: nat, i: nat)
    requires |cores| == |keys| && i < |cores| && Given(cores, keys, coreOf, t, |cores|, i)
    ensures Given(cores, keys, coreOf, t + 1, 0, i)
  {
    DealingRound(cores, t);
    DealtRound(Sizes(cores), t);
  }

  lemma GivenNext(cores: seq<seq<int>>, keys: seq<int>, coreOf: map<int, int>, t: nat, m: nat, i: nat)
    requires OfCores(cores, keys, coreOf) && m < |cores| && i < |cores| && Given(cores, keys, coreOf, t, m, i)
    ensures Given(cores, keys, coreOf, t, m + 1, i)
  {
    ThreadsStep(cores, keys, coreOf, t, m, i);
  }

  /** Dealing gives core i its first threads, in order, as many as its share of the deal. */
  lemma {:induction false} DealingGives(cores: seq<seq<int>>, keys: seq<int>, coreOf: map<int, int>, t: nat, m: nat,
                                        i: nat)
    requires OfCores(cores, keys, coreOf) && m <= |cores| && i < |cores|
    ensures Given(cores, keys, coreOf, t, m, i)
    decreases t, m
  {
    if m > 0 {
      DealingGives(cores, keys, coreOf, t, m - 1, i);
      GivenNext(cores, keys, coreOf, t, m - 1, i);
    } else if t > 0 {
      DealingGives(cores, keys, coreOf, t - 1, |cores|, i);
      GivenNextRound(cores, keys, coreOf, t - 1, i);
    } else {
      GivenFirst(cores, keys, coreOf, i);
    }
  }

  /** And no other core anything. */
  lemma {:induction false} DealingGivesNoOther(cores: seq<seq<int>>, keys: seq<int>, coreOf: map<int, int>, t: nat,
                                               m: nat, key: int)
    requires OfCores(cores, keys, coreOf) && m <= |cores| && key !in keys
    ensures Threads(Dealing(cores, t, m), coreOf, key) == []
    decreases t, m
  {
    if m > 0 {
      DealingGivesNoOther(cores, keys, coreOf, t, m - 1, key);
      DealingStep(cores, t, m - 1);
      if t < |cores[m - 1]| {
        ThreadsSnoc(Dealing(cores, t, m - 1), cores[m - 1][t], coreOf, key);
        assert cores[m - 1][t] in cores[m - 1] && keys[m - 1] in keys;
      } else {
        assert Dealing(cores, t, m - 1) + [] == Dealing(cores, t, m - 1);
      }
    } else if t > 0 {
      DealingGivesNoOther(cores, keys, coreOf, t - 1, |cores|, key);
      DealingRound(cores, t - 1);
    } else {
      assert Dealing(cores, 0, 0) == [];
    }
  }

  // ---------- The loop ----------

  /** The keys and threads of the first i CPUs. */
  ghost predicate Grouped(allowed: seq<int>, coreOf: map<int, int>, keys: seq<int>, threads: map<int, seq<int>>) {
    && keys == Keys(allowed, coreOf)
    && (forall key :: key in threads <==> key in keys)
    && forall key | key in keys :: threads[key] == Threads(allowed, coreOf, key)
  }

  lemma GroupStep(s: seq<int>, c: int, coreOf: map<int, int>, keys: seq<int>, threads: map<int, seq<int>>)
    requires Grouped(s, coreOf, keys, threads)
    ensures var key := Core(coreOf, c);
      if key in threads then Grouped(s + [c], coreOf, keys, threads[key := threads[key] + [c]])
      else Grouped(s + [c], coreOf, keys + [key], threads[key := [c]])
  {
    if Core(coreOf, c) in threads {
      GroupKnown(s, c, coreOf, keys, threads);
    } else {
      GroupNew(s, c, coreOf, keys, threads);
    }
  }

  lemma ThreadsOfOne(s: seq<int>, c: int, coreOf: map<int, int>, keys: seq<int>)
    ensures forall k | k in keys :: Threads(s + [c], coreOf, k) == Threads(s, coreOf, k)
                                      + (if Core(coreOf, c) == k then [c] else [])
  {
    forall k | k in keys
      ensures Threads(s + [c], coreOf, k) == Threads(s, coreOf, k) + (if Core(coreOf, c) == k then [c] else [])
    {
      ThreadsSnoc(s, c, coreOf, k);
    }
  }

  lemma GroupKnown(s: seq<int>, c: int, coreOf: map<int, int>, keys: seq<int>, threads: map<int, seq<int>>)
    requires Grouped(s, coreOf, keys, threads) && Core(coreOf, c) in threads
    ensures var key := Core(coreOf, c); Grouped(s + [c], coreOf, keys, threads[key := threads[key] + [c]])
  {
    assert (s + [c])[..|s|] == s;
    ThreadsOfOne(s, c, coreOf, keys);
  }

  lemma GroupNew(s: seq<int>, c: int, coreOf: map<int, int>, keys: seq<int>, threads: map<int, seq<int>>)
    requires Grouped(s, coreOf, keys, threads) && Core(coreOf, c) !in threads
    ensures var key := Core(coreOf, c); Grouped(s + [c], coreOf, keys + [key], threads[key := [c]])
  {
    var key := Core(coreOf, c);
    assert (s + [c])[..|s|] == s;
    ThreadsOfOne(s, c, coreOf, keys + [key]);
    KeysAreCores(s, coreOf);
    ThreadsAreOfCore(s, coreOf, key);
  }

  method GroupByCore(allowed: seq<int>, coreOf: map<int, int>) returns (keys: seq<int>, threads: map<int, seq<int>>)
    ensures Grouped(allowed, coreOf, keys, threads)
  {
    keys, threads := [], map[];
    for i := 0 to |allowed|
      invariant Grouped(allowed[..i], coreOf, keys, threads)
    {
      var c := allowed[i];
      var key := if c in coreOf then coreOf[c] else c;
      assert allowed[..i + 1] == allowed[..i] + [c];
      GroupStep(allowed[..i], c, coreOf, keys, threads);
      if key !in threads {
        keys := keys + [key];
        threads := threads[key := [c]];
      } else {
        threads := threads[key := threads[key] + [c]];
      }
    }
    assert allowed[..|allowed|] == allowed;
  }

  /** The loop ends, having dealt out every thread of every core. */
  method CoreFirst(allowed: seq<int>, coreOf: map<int, int>) returns (ordered: seq<int>, ghost rounds: nat)
    ensures ordered == Rounds(Cores(allowed, coreOf), rounds) && |ordered| == |allowed|
  {
    var keys, threads := GroupByCore(allowed, coreOf);
    ghost var cores := Cores(allowed, coreOf);
    ghost var sizes := Sizes(cores);
    CoresCoverAllowed(allowed, coreOf);
    ordered := [];
    var t: nat := 0;
    while |ordered| < |allowed|
      invariant ordered == Rounds(cores, t) && |ordered| <= |allowed|
      decreases |allowed| - |ordered|
    {
      RoundGrows(cores, t, |allowed|);
      ordered := OneRound(keys, threads, t, ordered, cores);
      t := t + 1;
    }
    rounds := t;
  }

  lemma RoundGrows(cores: seq<seq<int>>, t: nat, total: nat)
    requires |Rounds(cores, t)| < total == Sum(Sizes(cores))
    ensures |Rounds(cores, t)| < |Rounds(cores, t + 1)| <= total
  {
    var sizes := Sizes(cores);
    assert Dealing(cores, t, 0) == Rounds(cores, t);
    DealingSize(cores, t, 0);
    DealingRound(cores, t);
    DealingSize(cores, t + 1, 0);
    RoundPlaces(sizes, t);
    SumLeq(Dealt(sizes, t + 1, 0), sizes);
  }

  method OneRound(keys: seq<int>, threads: map<int, seq<int>>, t: nat, ordered: seq<int>, ghost cores: seq<seq<int>>)
    returns (next: seq<int>)
    requires |cores| == |keys| && forall i | 0 <= i < |keys| :: keys[i] in threads && threads[keys[i]] == cores[i]
    requires ordered == Rounds(cores, t)
    ensures next == Rounds(cores, t + 1)
  {
    next := ordered;
    for i := 0 to |keys|
      invariant next == Dealing(cores, t, i)
    {
      DealingStep(cores, t, i);
      if t < |threads[keys[i]]| {
        next := next + [threads[keys[i]][t]];
      }
    }
  }

  // ---------- What the order is worth ----------

  lemma OccursSnoc(s: seq<int>, x: int, c: int)
    ensures multiset(s + [x])[c] == multiset(s)[c] + (if x == c then 1 else 0)
  {
  }

  lemma {:induction false} OccursInThreads(s: seq<int>, coreOf: map<int, int>, c: int)
    ensures multiset(s)[c] == multiset(Threads(s, coreOf, Core(coreOf, c)))[c]
  {
    if s != [] {
      var n := |s| - 1;
      OccursInThreads(s[..n], coreOf, c);
      OccursSnoc(s[..n], s[n], c);
      OccursSnoc(Threads(s[..n], coreOf, Core(coreOf, c)), s[n], c);
      assert s == s[..n] + [s[n]];
    }
  }

  lemma FullDeal(caps: seq<int>, level: nat)
    requires Sum(Dealt(caps, level, 0)) == Sum(caps) && forall i | 0 <= i < |caps| :: caps[i] >= 0
    ensures Dealt(caps, level, 0) == caps
  {
    SumLeq(Dealt(caps, level, 0), caps);
  }

  lemma AllThreads(allowed: seq<int>, coreOf: map<int, int>, rounds: nat, key: int)
    requires |Rounds(Cores(allowed, coreOf), rounds)| == |allowed|
    ensures Threads(Rounds(Cores(allowed, coreOf), rounds), coreOf, key) == Threads(allowed, coreOf, key)
  {
    var cores, keys := Cores(allowed, coreOf), Keys(allowed, coreOf);
    CoresAreOfCores(allowed, coreOf);
    assert Dealing(cores, rounds, 0) == Rounds(cores, rounds);
    if key in keys {
      var i :| 0 <= i < |keys| && keys[i] == key;
      DealingSize(cores, rounds, 0);
      CoresCoverAllowed(allowed, coreOf);
      FullDeal(Sizes(cores), rounds);
      DealingGives(cores, keys, coreOf, rounds, 0, i);
      assert cores[i][..|cores[i]|] == cores[i];
    } else {
      DealingGivesNoOther(cores, keys, coreOf, rounds, 0, key);
      KeysAreCores(allowed, coreOf);
      ThreadsAreOfCore(allowed, coreOf, key);
    }
  }

  /** The order is a permutation of the allowed CPUs, each core's in their old order. */
  lemma OrderIsPermutation(allowed: seq<int>, coreOf: map<int, int>, rounds: nat)
    requires |Rounds(Cores(allowed, coreOf), rounds)| == |allowed|
    ensures multiset(Rounds(Cores(allowed, coreOf), rounds)) == multiset(allowed)
    ensures forall key :: Threads(Rounds(Cores(allowed, coreOf), rounds), coreOf, key) == Threads(allowed, coreOf, key)
  {
    var ordered := Rounds(Cores(allowed, coreOf), rounds);
    forall key
      ensures Threads(ordered, coreOf, key) == Threads(allowed, coreOf, key)
    {
      AllThreads(allowed, coreOf, rounds, key);
    }
    forall c: int
      ensures multiset(ordered)[c] == multiset(allowed)[c]
    {
      OccursInThreads(ordered, coreOf, c);
      OccursInThreads(allowed, coreOf, c);
    }
  }

  lemma {:induction false} RoundPrefix(cores: seq<seq<int>>, t: nat, m: nat, k: nat) returns (cut: nat)
    requires m <= |cores| && k <= |Round(cores, t, m)|
    ensures cut <= |cores| && Round(cores, t, m)[..k] == Round(cores, t, cut)
  {
    if k == |Round(cores, t, m)| {
      cut := m;
    } else {
      cut := RoundPrefix(cores, t, m - 1, k);
    }
  }

  /** Every prefix of the order is a deal in progress. */
  lemma {:induction false} PrefixIsDealing(cores: seq<seq<int>>, t: nat, n: nat) returns (level: nat, cut: nat)
    requires n <= |Rounds(cores, t)|
    ensures cut <= |cores| && Rounds(cores, t)[..n] == Dealing(cores, level, cut)
  {
    if t == 0 {
      level, cut := 0, 0;
    } else {
      var before := Rounds(cores, t - 1);
      if n <= |before| {
        level, cut := PrefixIsDealing(cores, t - 1, n);
        assert Rounds(cores, t)[..n] == before[..n];
      } else {
        level := t - 1;
        cut := RoundPrefix(cores, t - 1, |cores|, n - |before|);
      }
    }
  }

  /** How many of the CPUs are of each core. */
  function PerCore(cpus: seq<int>, coreOf: map<int, int>, keys: seq<int>): (counts: seq<int>)
    ensures |counts| == |keys|
  {
    seq(|keys|, i requires 0 <= i < |keys| => |Threads(cpus, coreOf, keys[i])|)
  }

  /** The first n CPUs of the order are spread over the cores as n ranks are over nodes. */
  lemma PrefixIsDeal(allowed: seq<int>, coreOf: map<int, int>, rounds: nat, n: nat)
    requires n <= |Rounds(Cores(allowed, coreOf), rounds)|
    ensures Deals(Sizes(Cores(allowed, coreOf)),
                  PerCore(Rounds(Cores(allowed, coreOf), rounds)[..n], coreOf, Keys(allowed, coreOf)), n)
  {
    var cores, keys := Cores(allowed, coreOf), Keys(allowed, coreOf);
    var level, cut := PrefixIsDealing(cores, rounds, n);
    var prefix := Rounds(cores, rounds)[..n];
    var counts := PerCore(prefix, coreOf, keys);
    CoresAreOfCores(allowed, coreOf);
    DealingSize(cores, level, cut);
    forall i | 0 <= i < |keys|
      ensures counts[i] == Dealt(Sizes(cores), level, cut)[i]
    {
      DealingGives(cores, keys, coreOf, level, cut, i);
    }
    assert counts == Dealt(Sizes(cores), level, cut);
  }

  /** At every position no core is two threads ahead of another that has threads left, and
      the first CPUs, one for each core there is, are of different cores. */
  lemma OrderIsBalanced(allowed: seq<int>, coreOf: map<int, int>, rounds: nat, n: nat, i: nat, j: nat)
    requires n <= |Rounds(Cores(allowed, coreOf), rounds)|
    requires i < |Keys(allowed, coreOf)| && j < |Keys(allowed, coreOf)|
    ensures var keys := Keys(allowed, coreOf);
      var prefix := Rounds(Cores(allowed, coreOf), rounds)[..n];
      var a, b := |Threads(prefix, coreOf, keys[i])|, |Threads(prefix, coreOf, keys[j])|;
      && (a <= b + 1 || b == |Threads(allowed, coreOf, keys[j])|)
      && (n <= |keys| ==> a <= 1)
  {
    var cores, keys := Cores(allowed, coreOf), Keys(allowed, coreOf);
    var sizes := Sizes(cores);
    var counts := PerCore(Rounds(cores, rounds)[..n], coreOf, keys);
    PrefixIsDeal(allowed, coreOf, rounds, n);
    DealIsFair(sizes, counts, n, i, j);
    DealIsFair(sizes, counts, n, j, i);
    if n <= |keys| && counts[i] > 1 {
      CoresAreNotEmpty(allowed, coreOf);
      forall k | 0 <= k < |keys|
        ensures counts[k] >= 1
      {
        DealIsFair(sizes, counts, n, i, k);
        DealIsFair(sizes, counts, n, k, k);
      }
      TooMany(counts, i);
      assert false;
    }
  }

  lemma {:induction false} TooMany(counts: seq<int>, i: nat)
    requires i < |counts| && counts[i] > 1 && forall k | 0 <= k < |counts| :: counts[k] >= 1
    ensures Sum(counts) > |counts|
  {
    var ones := seq(|counts|, _ => 1);
    SumOnes(ones);
    assert ones[i] != counts[i];
    SumLeq(ones, counts);
  }

  lemma {:induction false} SumOnes(s: seq<int>)
    requires forall k | 0 <= k < |s| :: s[k] == 1
    ensures Sum(s) == |s|
  {
    if s != [] {
      SumOnes(s[..|s| - 1]);
    }
  }

  lemma {:induction false} CoresAreNotEmpty(allowed: seq<int>, coreOf: map<int, int>)
    ensures forall i | 0 <= i < |Keys(allowed, coreOf)| :: |Threads(allowed, coreOf, Keys(allowed, coreOf)[i])| >= 1
  {
    if allowed != [] {
      CoresAreNotEmpty(allowed[..|allowed| - 1], coreOf);
    }
  }

  // ---------- The CPUs that lead ----------

  /** The cores of the CPUs: the one each is a thread of, a CPU of no known core being its own. */
  function CoresOf(allowed: seq<int>, coreOf: map<int, int>): set<int> {
    set c | c in allowed :: if c in coreOf then coreOf[c] else c
  }

  lemma {:induction false} KeysAreOfCpus(allowed: seq<int>, coreOf: map<int, int>)
    ensures Elements(Keys(allowed, coreOf)) == CoresOf(allowed, coreOf)
  {
    if allowed != [] {
      var n := |allowed| - 1;
      KeysAreOfCpus(allowed[..n], coreOf);
      assert forall c :: c in allowed <==> c in allowed[..n] || c == allowed[n];
      assert CoresOf(allowed, coreOf) == CoresOf(allowed[..n], coreOf) + {Core(coreOf, allowed[n])};
    }
  }

  lemma {:induction false} DistinctCount(s: seq<int>)
    requires Distinct(s)
    ensures |Elements(s)| == |s|
  {
    if s != [] {
      var n := |s| - 1;
      DistinctCount(s[..n]);
      assert Elements(s) == Elements(s[..n]) + {s[n]} && s[n] !in Elements(s[..n]);
    } else {
      assert Elements(s) == {};
    }
  }

  lemma {:induction false} TwoThreads(s: seq<int>, coreOf: map<int, int>, key: int, a: nat, b: nat)
    requires a < b < |s| && Core(coreOf, s[a]) == key && Core(coreOf, s[b]) == key
    ensures |Threads(s, coreOf, key)| >= 2
  {
    var n := |s| - 1;
    if b < n {
      TwoThreads(s[..n], coreOf, key, a, b);
    } else {
      OneThread(s[..n], coreOf, key, a);
    }
  }

  lemma {:induction false} OneThread(s: seq<int>, coreOf: map<int, int>, key: int, a: nat)
    requires a < |s| && Core(coreOf, s[a]) == key
    ensures |Threads(s, coreOf, key)| >= 1
  {
    if a < |s| - 1 {
      OneThread(s[..|s| - 1], coreOf, key, a);
    }
  }

  /** As many CPUs as there are cores lead the order, each of another core. */
  lemma LeadersAreOfDifferentCores(allowed: seq<int>, coreOf: map<int, int>, rounds: nat, a: nat, b: nat)
    requires |Rounds(Cores(allowed, coreOf), rounds)| == |allowed| && a < b < |CoresOf(allowed, coreOf)|
    ensures |CoresOf(allowed, coreOf)| <= |allowed|
    ensures var order := Rounds(Cores(allowed, coreOf), rounds);
      (if order[a] in coreOf then coreOf[order[a]] else order[a])
      != (if order[b] in coreOf then coreOf[order[b]] else order[b])
  {
    var order, keys := Rounds(Cores(allowed, coreOf), rounds), Keys(allowed, coreOf);
    KeysAreOfCpus(allowed, coreOf);
    KeysAreCores(allowed, coreOf);
    DistinctCount(keys);
    KeysFit(allowed, coreOf);
    var key := Core(coreOf, order[a]);
    OrderIsPermutation(allowed, coreOf, rounds);
    assert order[a] in multiset(order);
    assert key in keys;
    var i :| 0 <= i < |keys| && keys[i] == key;
    OrderIsBalanced(allowed, coreOf, rounds, |keys|, i, i);
    if Core(coreOf, order[b]) == key {
      TwoThreads(order[..|keys|], coreOf, key, a, b);
    }
  }

  lemma {:induction false} KeysFit(allowed: seq<int>, coreOf: map<int, int>)
    ensures |Keys(allowed, coreOf)| <= |allowed|
  {
    if allowed != [] {
      KeysFit(allowed[..|allowed| - 1], coreOf);
    }
  }
}
