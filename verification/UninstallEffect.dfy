/**
 What an uninstall plan without refusals does to a cluster, in closed form: one
 value for each queue, PE and complex, for any record and any cluster.
 */
module UninstallEffect {
  import opened Text
  import opened Sequences
  import opened Scheduler
  import opened Planner
  import opened InstallRecord
  import opened Uninstaller

  // ---------- The effect, object by object ----------

  function Unlisted(list: seq<string>, names: seq<string>): seq<string>
    decreases |names|
  {
    if names == [] then list else Unlisted(Without(list, names[0]), names[1..])
  }

  /** Restored PEs leave only the lists the record says install added them to. */
  function Unadded(list: seq<string>, q: string, names: seq<string>, st: Record): seq<string>
    decreases |names|
  {
    if names == [] then list
    else Unadded(if PEListAdd(q, names[0]) in st.peListAdds then Without(list, names[0]) else list,
                 q, names[1..], st)
  }

  function UnwiredStarter(q: Queue, st: Record, inTree: string -> bool): string {
    if StartsInTree(q, inTree) then FromNone(OrNone(OldStarter(st, q.name))) else q.starterMethod
  }

  /** A queue that is kept. */
  function Unwired(q: Queue, ours: seq<string>, restored: seq<string>, st: Record, inTree: string -> bool): Queue {
    q.(peList := Unadded(Unlisted(q.peList, ours), q.name, restored, st),
       starterMethod := UnwiredStarter(q, st, inTree))
  }

  function RestoredAttrs(pe: PE, rs: seq<Replaced>): PE
    decreases |rs|
  {
    if rs == [] then pe
    else
      var w := WithPEAttr(pe, rs[0].attr, OrNone(rs[0].prev));
      RestoredAttrs(if w.Some? then w.value else pe, rs[1..])
  }

  // ---------- Lists ----------

  lemma {:induction false} WithoutMembers(xs: seq<string>, x: string)
    ensures forall y :: y in Without(xs, x) <==> y in xs && y != x
    ensures x !in xs ==> Without(xs, x) == xs
  {
    if xs != [] {
      WithoutMembers(xs[1..], x);
      assert forall y :: y in xs <==> y == xs[0] || y in xs[1..];
      assert xs == [xs[0]] + xs[1..];
    }
  }

  lemma {:induction false} WithoutLast(xs: seq<string>, x: string)
    requires x !in xs
    ensures Without(xs + [x], x) == xs
  {
    if xs == [] {
      assert xs + [x] == [x];
      assert Without([x][1..], x) == [];
    } else {
      assert xs[0] in xs;
      assert forall y | y in xs[1..] :: y in xs;
      assert (xs + [x])[1..] == xs[1..] + [x];
      WithoutLast(xs[1..], x);
      assert xs == [xs[0]] + xs[1..];
    }
  }

  lemma {:induction false} UnlistedMembers(list: seq<string>, names: seq<string>)
    ensures forall y :: y in Unlisted(list, names) <==> y in list && y !in names
    ensures (forall y | y in names :: y !in list) ==> Unlisted(list, names) == list
    decreases |names|
  {
    if names != [] {
      WithoutMembers(list, names[0]);
      UnlistedMembers(Without(list, names[0]), names[1..]);
      assert forall y :: y in names <==> y == names[0] || y in names[1..];
    }
  }

  lemma {:induction false} UnaddedMembers(list: seq<string>, q: string, names: seq<string>, st: Record)
    ensures forall y | y in Unadded(list, q, names, st) :: y in list
    ensures (forall y | y in names :: PEListAdd(q, y) !in st.peListAdds || y !in list) ==>
      Unadded(list, q, names, st) == list
    decreases |names|
  {
    if names != [] {
      WithoutMembers(list, names[0]);
      UnaddedMembers(if PEListAdd(q, names[0]) in st.peListAdds then Without(list, names[0]) else list,
                     q, names[1..], st);
      assert forall y :: y in names <==> y == names[0] || y in names[1..];
    }
  }

  // ---------- One queue ----------

  function WithList(c: Cluster, name: string, list: seq<string>): Cluster
    requires name in c.queues
  {
    c.(queues := c.queues[name := c.queues[name].(peList := list)])
  }

  lemma WithListTwice(c: Cluster, name: string, one: seq<string>, two: seq<string>)
    requires name in c.queues
    ensures WithList(WithList(c, name, one), name, two) == WithList(c, name, two)
    ensures WithList(c, name, c.queues[name].peList) == c
  {
    assert c.queues[name := c.queues[name]] == c.queues;
  }

  /** A removal row, or none for a PE that is not listed. */
  lemma RemovalRuns(c: Cluster, name: string, pe: string, listed: bool)
    requires name in c.queues && (!listed ==> pe !in c.queues[name].peList)
    ensures var rows := if listed then [RemoveRow(name, pe)] else [];
      Applies(c, rows) && After(c, rows) == WithList(c, name, Without(c.queues[name].peList, pe))
  {
    WithoutMembers(c.queues[name].peList, pe);
    WithListTwice(c, name, [], []);
    OneRow(c, RemoveRow(name, pe));
  }

  lemma {:induction false} OursLeave(c: Cluster, q: Queue, ours: seq<string>)
    requires q.name in c.queues
    requires forall y | y in c.queues[q.name].peList :: y in q.peList
    ensures var rows := FlatMap(ours, OursRemoval(q));
      Applies(c, rows) && After(c, rows) == WithList(c, q.name, Unlisted(c.queues[q.name].peList, ours))
    decreases |ours|
  {
    var list := c.queues[q.name].peList;
    if ours == [] {
      WithListTwice(c, q.name, list, list);
    } else {
      var row, list1 := OursRemoval(q)(ours[0]), Without(list, ours[0]);
      WithoutMembers(list, ours[0]);
      RemovalRuns(c, q.name, ours[0], ours[0] in q.peList);
      OursLeave(WithList(c, q.name, list1), q, ours[1..]);
      WithListTwice(c, q.name, list1, Unlisted(list1, ours[1..]));
      AfterConcat(c, row, FlatMap(ours[1..], OursRemoval(q)));
    }
  }

  lemma {:induction false} RestoredLeave(c: Cluster, q: Queue, names: seq<string>, st: Record)
    requires q.name in c.queues
    requires forall y | y in c.queues[q.name].peList :: y in q.peList
    ensures var rows := FlatMap(names, RestoredRemoval(q, st));
      Applies(c, rows) && After(c, rows) == WithList(c, q.name, Unadded(c.queues[q.name].peList, q.name, names, st))
    decreases |names|
  {
    var list := c.queues[q.name].peList;
    if names == [] {
      WithListTwice(c, q.name, list, list);
    } else {
      var row := RestoredRemoval(q, st)(names[0]);
      var added := PEListAdd(q.name, names[0]) in st.peListAdds;
      var list1 := if added then Without(list, names[0]) else list;
      WithoutMembers(list, names[0]);
      if added {
        RemovalRuns(c, q.name, names[0], names[0] in q.peList);
      } else {
        assert row == [];
        WithListTwice(c, q.name, list, list);
      }
      RestoredLeave(WithList(c, q.name, list1), q, names[1..], st);
      WithListTwice(c, q.name, list1, Unadded(list1, q.name, names[1..], st));
      AfterConcat(c, row, FlatMap(names[1..], RestoredRemoval(q, st)));
    }
  }

  lemma StarterLeaves(c: Cluster, q: Queue, st: Record, inTree: string -> bool)
    requires q.name in c.queues && c.queues[q.name].starterMethod == q.starterMethod
    ensures var rows := StarterRow(q, st, inTree);
      && Applies(c, rows)
      && After(c, rows)
         == c.(queues := c.queues[q.name := c.queues[q.name].(starterMethod := UnwiredStarter(q, st, inTree))])
  {
    if StartsInTree(q, inTree) {
      OneRow(c, StarterRow(q, st, inTree)[0]);
    } else {
      assert c.queues[q.name := c.queues[q.name]] == c.queues;
    }
  }

  ghost predicate NoRefusal(rows: seq<Change>) {
    forall ch | ch in rows :: ch.kind != Refused
  }

  /** Without a refusal the refusing parts of a queue's rows are empty. */
  lemma NoOverrideOffers(q: Queue, ours: seq<string>)
    requires NoRefusal(FlatMap(q.peListOverrides, OverrideRefusal(q, ours)))
    ensures FlatMap(q.peListOverrides, OverrideRefusal(q, ours)) == []
    ensures forall ov, pe | ov in q.peListOverrides && pe in ours :: pe !in OverrideWords(ov)
  {
    var rows := FlatMap(q.peListOverrides, OverrideRefusal(q, ours));
    FlatMapMembers(q.peListOverrides, OverrideRefusal(q, ours));
    forall ov, ch | ov in q.peListOverrides && ch in OverrideRefusal(q, ours)(ov)
      ensures ch.kind == Refused
    {
      FlatMapMembers(ours, OverrideHit(q, ov));
    }
    HeadIn(rows);
    forall ov, pe | ov in q.peListOverrides && pe in ours
      ensures pe !in OverrideWords(ov)
    {
      FlatMapMembers(ours, OverrideHit(q, ov));
      var row := RefusedRow(q.name, PEListAttr, ov, "");
      assert pe in OverrideWords(ov) ==> row in OverrideHit(q, ov)(pe);
      assert row in OverrideRefusal(q, ours)(ov) ==> row in rows;
    }
  }

  lemma NoOverrideStarts(q: Queue, inTree: string -> bool)
    requires NoRefusal(FlatMap(q.starterOverrides, StarterRefusal(q, inTree)))
    ensures FlatMap(q.starterOverrides, StarterRefusal(q, inTree)) == []
    ensures forall ov | ov in q.starterOverrides :: !OverrideInTree(ov, inTree)
  {
    var rows := FlatMap(q.starterOverrides, StarterRefusal(q, inTree));
    FlatMapMembers(q.starterOverrides, StarterRefusal(q, inTree));
    HeadIn(rows);
    forall ov | ov in q.starterOverrides
      ensures !OverrideInTree(ov, inTree)
    {
      var row := RefusedRow(q.name, StarterMethod, ov, "");
      assert OverrideInTree(ov, inTree) ==> row in StarterRefusal(q, inTree)(ov);
    }
  }

  lemma FiveParts<X>(a: seq<X>, b: seq<X>, c: seq<X>, d: seq<X>, e: seq<X>)
    ensures forall x :: x in a + b + c + d + e <==> x in a || x in b || x in c || x in d || x in e
    ensures c == [] && d == [] ==> a + b + c + d + e == a + b + e
  {
  }

  lemma ThreeRuns(c: Cluster, a: seq<Change>, b: seq<Change>, e: seq<Change>)
    ensures After(c, a + b + e) == After(After(After(c, a), b), e)
    ensures Applies(c, a) && Applies(After(c, a), b) && Applies(After(After(c, a), b), e) ==> Applies(c, a + b + e)
  {
    AfterConcat(c, a, b);
    AfterConcat(c, a + b, e);
  }

  /** The rows of one queue take it to Unwired, and touch nothing else. */
  lemma UnwireRuns(c: Cluster, q: Queue, ours: seq<string>, restored: seq<string>, st: Record, inTree: string -> bool)
    requires q.name in c.queues && c.queues[q.name] == q
    requires NoRefusal(UnwireRows(q, ours, restored, st, inTree))
    ensures var rows := UnwireRows(q, ours, restored, st, inTree);
      && Applies(c, rows)
      && After(c, rows) == c.(queues := c.queues[q.name := Unwired(q, ours, restored, st, inTree)])
    ensures forall ov, pe | ov in q.peListOverrides && pe in ours :: pe !in OverrideWords(ov)
    ensures forall ov | ov in q.starterOverrides :: !OverrideInTree(ov, inTree)
  {
    var r1, r2 := FlatMap(ours, OursRemoval(q)), FlatMap(restored, RestoredRemoval(q, st));
    var r3 := FlatMap(q.peListOverrides, OverrideRefusal(q, ours));
    var r4 := FlatMap(q.starterOverrides, StarterRefusal(q, inTree));
    var r5 := StarterRow(q, st, inTree);
    FiveParts(r1, r2, r3, r4, r5);
    NoOverrideOffers(q, ours);
    NoOverrideStarts(q, inTree);
    ThreeRuns(c, r1, r2, r5);
    ChangingRowsRun(c, q, ours, restored, st, inTree);
  }

  lemma ChangingRowsRun(c: Cluster, q: Queue, ours: seq<string>, restored: seq<string>, st: Record,
                        inTree: string -> bool)
    requires q.name in c.queues && c.queues[q.name] == q
    ensures var r1, r2 := FlatMap(ours, OursRemoval(q)), FlatMap(restored, RestoredRemoval(q, st));
      var r5 := StarterRow(q, st, inTree);
      && Applies(c, r1) && Applies(After(c, r1), r2) && Applies(After(After(c, r1), r2), r5)
      && After(After(After(c, r1), r2), r5)
         == c.(queues := c.queues[q.name := Unwired(q, ours, restored, st, inTree)])
  {
    OursLeave(c, q, ours);
    UnlistedMembers(q.peList, ours);
    var list1 := Unlisted(q.peList, ours);
    var c1 := WithList(c, q.name, list1);
    RestoredLeave(c1, q, restored, st);
    var list2 := Unadded(list1, q.name, restored, st);
    WithListTwice(c, q.name, list1, list2);
    StarterLast(c, q, list2, st, inTree);
  }

  lemma StarterLast(c: Cluster, q: Queue, list: seq<string>, st: Record, inTree: string -> bool)
    requires q.name in c.queues && c.queues[q.name] == q
    ensures var d := WithList(c, q.name, list); var rows := StarterRow(q, st, inTree);
      Applies(d, rows)
      && After(d, rows) == c.(queues := c.queues[q.name := q.(peList := list,
                                                              starterMethod := UnwiredStarter(q, st, inTree))])
  {
    StarterLeaves(WithList(c, q.name, list), q, st, inTree);
  }

  // ---------- All queues ----------

  function KeptQueue(q: Queue, created: string, ours: seq<string>, restored: seq<string>, st: Record,
                     inTree: string -> bool): Queue
  {
    if q.name == created then q else Unwired(q, ours, restored, st, inTree)
  }

  /** No per-host entry of a queue offers one of ours or starts in the tree. */
  ghost predicate NoOverrides(q: Queue, ours: seq<string>, inTree: string -> bool) {
    && (forall ov, pe | ov in q.peListOverrides && pe in ours :: pe !in OverrideWords(ov))
    && (forall ov | ov in q.starterOverrides :: !OverrideInTree(ov, inTree))
  }

  lemma QueueRuns(c: Cluster, q: Queue, created: string, ours: seq<string>, restored: seq<string>, st: Record,
                  inTree: string -> bool)
    requires q.name in c.queues && c.queues[q.name] == q
    requires NoRefusal(RowsUnlessDeleted(q, created, ours, restored, st, inTree))
    ensures var rows := RowsUnlessDeleted(q, created, ours, restored, st, inTree);
      && Applies(c, rows)
      && After(c, rows) == c.(queues := c.queues[q.name := KeptQueue(q, created, ours, restored, st, inTree)])
    ensures q.name != created ==> NoOverrides(q, ours, inTree)
  {
    if q.name == created {
      assert c.queues[q.name := q] == c.queues;
    } else {
      UnwireRuns(c, q, ours, restored, st, inTree);
    }
  }

  /** qs is a part of the reading of c in which no queue has been touched yet. */
  ghost predicate Untouched(qs: seq<Queue>, c: Cluster) {
    DistinctQueues(qs) && forall q | q in qs :: q.name in c.queues && c.queues[q.name] == q
  }

  /** From c to d exactly the queues of qs have been treated. */
  ghost predicate Treated(c: Cluster, d: Cluster, qs: seq<Queue>, kept: Queue -> Queue) {
    && d.pes == c.pes && d.complexes == c.complexes && d.queues.Keys == c.queues.Keys
    && (forall q | q in qs :: q.name in d.queues && d.queues[q.name] == kept(q))
    && (forall n | n in c.queues && (forall q | q in qs :: q.name != n) :: d.queues[n] == c.queues[n])
  }

  lemma TreatedStep(c: Cluster, d: Cluster, qs: seq<Queue>, kept: Queue -> Queue)
    requires qs != [] && Untouched(qs, c)
    requires Treated(c.(queues := c.queues[qs[0].name := kept(qs[0])]), d, qs[1..], kept)
    ensures Treated(c, d, qs, kept)
  {
    assert forall q :: q in qs <==> q == qs[0] || q in qs[1..];
    assert forall q | q in qs[1..] :: q.name != qs[0].name;
    assert qs[0] in qs;
  }

  lemma UntouchedRest(c: Cluster, qs: seq<Queue>, v: Queue)
    requires qs != [] && Untouched(qs, c)
    ensures Untouched(qs[1..], c.(queues := c.queues[qs[0].name := v]))
  {
    assert forall q | q in qs[1..] :: q in qs && q.name != qs[0].name;
  }

  function Keeps(created: string, ours: seq<string>, restored: seq<string>, st: Record, inTree: string -> bool)
    : Queue -> Queue
  {
    (q: Queue) => KeptQueue(q, created, ours, restored, st, inTree)
  }

  lemma {:induction false} QueuesRun(c: Cluster, qs: seq<Queue>, created: string, ours: seq<string>,
                                     restored: seq<string>, st: Record, inTree: string -> bool)
    requires Untouched(qs, c)
    requires NoRefusal(FlatMap(qs, QueueRows(created, ours, restored, st, inTree)))
    ensures var rows := FlatMap(qs, QueueRows(created, ours, restored, st, inTree));
      Applies(c, rows) && Treated(c, After(c, rows), qs, Keeps(created, ours, restored, st, inTree))
    ensures forall q | q in qs && q.name != created :: NoOverrides(q, ours, inTree)
    decreases |qs|
  {
    if qs != [] {
      var q, rest := qs[0], qs[1..];
      assert q in qs;
      var f, kept := QueueRows(created, ours, restored, st, inTree), Keeps(created, ours, restored, st, inTree);
      var row := RowsUnlessDeleted(q, created, ours, restored, st, inTree);
      NoRefusalParts(row, FlatMap(rest, f));
      QueueRuns(c, q, created, ours, restored, st, inTree);
      UntouchedRest(c, qs, kept(q));
      var c1 := c.(queues := c.queues[q.name := kept(q)]);
      QueuesRun(c1, rest, created, ours, restored, st, inTree);
      AfterConcat(c, row, FlatMap(rest, f));
      TreatedStep(c, After(c1, FlatMap(rest, f)), qs, kept);
    }
  }

  lemma NoRefusalParts(a: seq<Change>, b: seq<Change>)
    requires NoRefusal(a + b)
    ensures NoRefusal(a) && NoRefusal(b)
  {
    assert forall ch | ch in a :: ch in a + b;
    assert forall ch | ch in b :: ch in a + b;
  }

  // ---------- Deletions and restores ----------

  ghost predicate DistinctNames(names: seq<string>) {
    forall i, j | 0 <= i < j < |names| :: names[i] != names[j]
  }

  lemma {:induction false} DeletesRun(c: Cluster, ours: seq<string>)
    requires DistinctNames(ours)
    requires forall pe | pe in ours :: pe in c.pes
    requires forall pe, n | pe in ours && n in c.queues :: !Offers(c.queues[n], pe)
    ensures Applies(c, FlatMap(ours, DeletePERow()))
    ensures After(c, FlatMap(ours, DeletePERow())) == c.(pes := map n | n in c.pes && n !in ours :: c.pes[n])
    decreases |ours|
  {
    if ours == [] {
      assert c.pes == map n | n in c.pes && n !in ours :: c.pes[n];
    } else {
      var row := Change(DeletePE, ours[0], NoAttr, "", "", None);
      assert ours[0] in ours;
      OneRow(c, row);
      var c1 := After(c, [row]);
      assert c1 == c.(pes := c.pes - {ours[0]});
      assert forall pe | pe in ours[1..] :: pe in ours && pe != ours[0];
      DeletesRun(c1, ours[1..]);
      AfterConcat(c, [row], FlatMap(ours[1..], DeletePERow()));
      assert forall n :: n in ours <==> n == ours[0] || n in ours[1..];
    }
  }

  lemma {:induction false} AttrsRun(c: Cluster, pe: string, rs: seq<Replaced>)
    requires pe in c.pes
    requires NoRefusal(FlatMap(rs, RestoreRow(pe)))
    ensures After(c, FlatMap(rs, RestoreRow(pe))) == c.(pes := c.pes[pe := RestoredAttrs(c.pes[pe], rs)])
    decreases |rs|
  {
    var rows := FlatMap(rs, RestoreRow(pe));
    if rs == [] {
      assert c.pes[pe := c.pes[pe]] == c.pes;
    } else {
      var row, more := RestoreRow(pe)(rs[0]), FlatMap(rs[1..], RestoreRow(pe));
      NoRefusalParts(row, more);
      HeadIn(row);
      assert row == [Change(SetPEAttr, pe, rs[0].attr, "", rs[0].prev, None)];
      OneRow(c, row[0]);
      var w := WithPEAttr(c.pes[pe], rs[0].attr, OrNone(rs[0].prev));
      var c1 := c.(pes := c.pes[pe := if w.Some? then w.value else c.pes[pe]]);
      assert c.pes[pe := c.pes[pe]] == c.pes;
      assert After(c, row) == c1;
      AttrsRun(c1, pe, rs[1..]);
      AfterConcat(c, row, more);
      assert c1.pes[pe := RestoredAttrs(c1.pes[pe], rs[1..])] == c.pes[pe := RestoredAttrs(c1.pes[pe], rs[1..])];
    }
  }

  function RestoredPE(pe: PE, st: Record): PE {
    RestoredAttrs(pe, AttrsOf(st.replaced, PEKey(pe.name)))
  }

  function RestoreNamed(pes: map<string, PE>, names: seq<string>, st: Record): map<string, PE> {
    map n | n in pes :: if n in names then RestoredPE(pes[n], st) else pes[n]
  }

  lemma RestoreNamedStep(pes: map<string, PE>, names: seq<string>, st: Record)
    requires names != [] && names[0] in pes && names[0] !in names[1..]
    ensures RestoreNamed(pes[names[0] := RestoredPE(pes[names[0]], st)], names[1..], st) == RestoreNamed(pes, names, st)
  {
    assert forall n :: n in names <==> n == names[0] || n in names[1..];
  }

  lemma RestFollows(names: seq<string>)
    requires names != [] && DistinctNames(names)
    ensures names[0] in names && DistinctNames(names[1..]) && forall n | n in names[1..] :: n in names && n != names[0]
  {
  }

  lemma RestoreOne(c: Cluster, pe: string, st: Record)
    requires pe in c.pes && c.pes[pe].name == pe
    requires NoRefusal(FlatMap(AttrsOf(st.replaced, PEKey(pe)), RestoreRow(pe)))
    ensures After(c, FlatMap(AttrsOf(st.replaced, PEKey(pe)), RestoreRow(pe)))
         == c.(pes := c.pes[pe := RestoredPE(c.pes[pe], st)])
  {
    AttrsRun(c, pe, AttrsOf(st.replaced, PEKey(pe)));
  }

  lemma {:induction false} RestoresRun(c: Cluster, names: seq<string>, st: Record)
    requires DistinctNames(names) && forall pe | pe in names :: pe in c.pes && c.pes[pe].name == pe
    requires NoRefusal(FlatMap(names, RestoreRows(st)))
    ensures After(c, FlatMap(names, RestoreRows(st))) == c.(pes := RestoreNamed(c.pes, names, st))
    decreases |names|
  {
    if names == [] {
      assert RestoreNamed(c.pes, names, st) == c.pes;
    } else {
      var row, more := FlatMap(AttrsOf(st.replaced, PEKey(names[0])), RestoreRow(names[0])),
          FlatMap(names[1..], RestoreRows(st));
      RestFollows(names);
      NoRefusalParts(row, more);
      RestoreOne(c, names[0], st);
      RestoresRun(After(c, row), names[1..], st);
      AfterConcat(c, row, more);
      RestoreNamedStep(c.pes, names, st);
    }
  }

  // ---------- The whole plan ----------

  lemma {:induction false} NamesOfAre(pes: seq<PE>, v: Verdict, st: Record, inTree: string -> bool, extraPE: string)
    requires DistinctPEs(pes)
    ensures var names := NamesOf(pes, v, st, inTree, extraPE);
      && DistinctNames(names)
      && (forall n | n in names :: exists p :: p in pes && p.name == n && Judge(p, st, inTree, extraPE) == v)
      && (forall p | p in pes && Judge(p, st, inTree, extraPE) == v :: p.name in names)
    decreases |pes|
  {
    if pes != [] {
      var p, rest := pes[0], pes[1..];
      NamesOfAre(rest, v, st, inTree, extraPE);
      var names, more := NamesOf(pes, v, st, inTree, extraPE), NamesOf(rest, v, st, inTree, extraPE);
      assert names == (if Judge(p, st, inTree, extraPE) == v then [p.name] else []) + more;
      assert forall q :: q in pes <==> q == p || q in rest;
      forall n | n in more
        ensures n != p.name
        ensures exists r :: r in pes && r.name == n && Judge(r, st, inTree, extraPE) == v
      {
        var r :| r in rest && r.name == n && Judge(r, st, inTree, extraPE) == v;
        assert r in pes;
      }
      assert p in pes;
      NameInFront(p.name, more);
    }
  }

  lemma NameInFront(n: string, more: seq<string>)
    requires DistinctNames(more) && n !in more
    ensures DistinctNames([n] + more) && [] + more == more
  {
  }

  /** The PEs of a reading with a given verdict are those of the cluster. */
  lemma VerdictNames(f: Facts, c: Cluster, v: Verdict, st: Record, inTree: string -> bool, extraPE: string)
    requires Named(c) && Lists(f, c)
    ensures var names := NamesOf(f.pes, v, st, inTree, extraPE);
      DistinctNames(names)
      && forall n :: n in names <==> n in c.pes && Judge(c.pes[n], st, inTree, extraPE) == v
  {
    NamesOfAre(f.pes, v, st, inTree, extraPE);
    var names := NamesOf(f.pes, v, st, inTree, extraPE);
    forall n | n in c.pes && Judge(c.pes[n], st, inTree, extraPE) == v
      ensures n in names
    {
      assert c.pes[n] in f.pes;
    }
  }

  lemma NoUnknown(f: Facts, c: Cluster, st: Record, inTree: string -> bool, extraPE: string)
    requires Named(c) && Lists(f, c)
    requires NoRefusal(FlatMap(f.pes, UnknownRow(st, inTree, extraPE)))
    ensures FlatMap(f.pes, UnknownRow(st, inTree, extraPE)) == []
    ensures forall n | n in c.pes :: Judge(c.pes[n], st, inTree, extraPE) != Unknown
  {
    var rows := FlatMap(f.pes, UnknownRow(st, inTree, extraPE));
    FlatMapMembers(f.pes, UnknownRow(st, inTree, extraPE));
    HeadIn(rows);
    forall n | n in c.pes
      ensures Judge(c.pes[n], st, inTree, extraPE) != Unknown
    {
      var p := c.pes[n];
      assert p in f.pes;
      var row := RefusedRow(p.name, StartProcArgs, p.startProcArgs, "");
      assert Judge(p, st, inTree, extraPE) == Unknown ==> row in UnknownRow(st, inTree, extraPE)(p);
    }
  }

  function QueuesLeft(c: Cluster, created: string, ours: seq<string>, restored: seq<string>, st: Record,
                      inTree: string -> bool): map<string, Queue>
  {
    map n | n in c.queues && n != created :: Unwired(c.queues[n], ours, restored, st, inTree)
  }

  lemma QueueStage(f: Facts, c: Cluster, created: string, ours: seq<string>, restored: seq<string>, st: Record,
                   inTree: string -> bool)
    requires Named(c) && Lists(f, c)
    requires created == "" || created in c.queues
    requires NoRefusal(FlatMap(f.queues, QueueRows(created, ours, restored, st, inTree)))
    ensures var rows := FlatMap(f.queues, QueueRows(created, ours, restored, st, inTree)) + DeleteQueueRows(created);
      Applies(c, rows) && After(c, rows) == c.(queues := QueuesLeft(c, created, ours, restored, st, inTree))
    ensures forall n | n in c.queues && n != created :: NoOverrides(c.queues[n], ours, inTree)
  {
    var rows := FlatMap(f.queues, QueueRows(created, ours, restored, st, inTree));
    QueuesRun(c, f.queues, created, ours, restored, st, inTree);
    AllTreated(f, c, After(c, rows), created, ours, restored, st, inTree);
    OverridesOf(f, c, created, ours, inTree);
    DeleteLast(c, rows, After(c, rows), created, QueuesLeft(c, created, ours, restored, st, inTree));
  }

  lemma OverridesOf(f: Facts, c: Cluster, created: string, ours: seq<string>, inTree: string -> bool)
    requires Lists(f, c) && forall q | q in f.queues && q.name != created :: NoOverrides(q, ours, inTree)
    requires Named(c)
    ensures forall n | n in c.queues && n != created :: NoOverrides(c.queues[n], ours, inTree)
  {
    forall n | n in c.queues && n != created
      ensures NoOverrides(c.queues[n], ours, inTree)
    {
      assert c.queues[n] in f.queues;
    }
  }

  /** The queue rows, then the deletion of the created queue. */
  lemma DeleteLast(c: Cluster, rows: seq<Change>, d: Cluster, created: string, left: map<string, Queue>)
    requires Applies(c, rows) && d == After(c, rows) == c.(queues := d.queues)
    requires created == "" || created in d.queues
    requires d.queues - {created} == left && (created !in d.queues ==> d.queues == left)
    requires "" !in d.queues
    ensures Applies(c, rows + DeleteQueueRows(created))
    ensures After(c, rows + DeleteQueueRows(created)) == c.(queues := left)
  {
    DeleteStage(d, created);
    AfterConcat(c, rows, DeleteQueueRows(created));
  }

  lemma DeleteStage(d: Cluster, created: string)
    requires created == "" || created in d.queues
    ensures Applies(d, DeleteQueueRows(created))
    ensures After(d, DeleteQueueRows(created)) == if created == "" then d else d.(queues := d.queues - {created})
  {
    if created != "" {
      OneRow(d, DeleteQueueRows(created)[0]);
    }
  }

  lemma {:induction false} AllTreated(f: Facts, c: Cluster, d: Cluster, created: string, ours: seq<string>,
                                      restored: seq<string>, st: Record, inTree: string -> bool)
    requires Named(c) && Lists(f, c)
    requires Treated(c, d, f.queues, Keeps(created, ours, restored, st, inTree))
    ensures created in d.queues <==> created in c.queues
    ensures d.queues - {created} == QueuesLeft(c, created, ours, restored, st, inTree)
    ensures created !in c.queues ==> d.queues == QueuesLeft(c, created, ours, restored, st, inTree)
    ensures d == c.(queues := d.queues)
  {
    KeptAre(f, c, d, created, ours, restored, st, inTree);
    KeptMaps(c.queues, d.queues, created, QueuesLeft(c, created, ours, restored, st, inTree));
  }

  lemma KeptMaps(before: map<string, Queue>, after: map<string, Queue>, created: string, left: map<string, Queue>)
    requires after.Keys == before.Keys && left.Keys == before.Keys - {created}
    requires forall n | n in before && n != created :: after[n] == left[n]
    ensures after - {created} == left && (created !in before ==> after == left)
  {
  }

  lemma KeptAre(f: Facts, c: Cluster, d: Cluster, created: string, ours: seq<string>, restored: seq<string>,
                st: Record, inTree: string -> bool)
    requires Named(c) && Lists(f, c)
    requires Treated(c, d, f.queues, Keeps(created, ours, restored, st, inTree))
    ensures var left := QueuesLeft(c, created, ours, restored, st, inTree);
      forall n | n in c.queues && n != created :: n in d.queues && n in left && d.queues[n] == left[n]
  {
    var left := QueuesLeft(c, created, ours, restored, st, inTree);
    forall n | n in c.queues
      ensures n in d.queues && n != created ==> n in left && d.queues[n] == left[n]
    {
      assert c.queues[n] in f.queues;
      TreatedAt(c, d, f.queues, Keeps(created, ours, restored, st, inTree), c.queues[n]);
    }
  }

  lemma TreatedAt(c: Cluster, d: Cluster, qs: seq<Queue>, kept: Queue -> Queue, q: Queue)
    requires Treated(c, d, qs, kept) && q in qs
    ensures q.name in d.queues && d.queues[q.name] == kept(q)
  {
  }

  function PEsLeft(c: Cluster, ours: seq<string>): map<string, PE> {
    map n | n in c.pes && n !in ours :: c.pes[n]
  }

  lemma NotOffered(c: Cluster, created: string, ours: seq<string>, restored: seq<string>, st: Record,
                   inTree: string -> bool)
    requires forall n | n in c.queues && n != created :: NoOverrides(c.queues[n], ours, inTree)
    ensures var left := QueuesLeft(c, created, ours, restored, st, inTree);
      forall pe, n | pe in ours && n in left :: !Offers(left[n], pe)
  {
    var left := QueuesLeft(c, created, ours, restored, st, inTree);
    forall pe, n | pe in ours && n in left
      ensures !Offers(left[n], pe)
    {
      var q := c.queues[n];
      UnlistedMembers(q.peList, ours);
      UnaddedMembers(Unlisted(q.peList, ours), q.name, restored, st);
      assert forall i | 0 <= i < |q.peListOverrides| :: q.peListOverrides[i] in q.peListOverrides;
    }
  }

  function ComplexesLeft(f: Facts, c: Cluster, st: Record, left: map<string, Queue>): map<string, Complex> {
    if DeleteComplexRows(f, st) == [] || (exists n :: n in left && NamesComplex(left[n], SHIM_COMPLEX))
    then c.complexes else c.complexes - {SHIM_COMPLEX}
  }

  lemma ComplexStage(f: Facts, c: Cluster, st: Record, d: Cluster)
    requires Named(c) && Lists(f, c) && d.complexes == c.complexes
    ensures After(d, DeleteComplexRows(f, st)) == d.(complexes := ComplexesLeft(f, c, st, d.queues))
  {
    Reading(f, c, SHIM_COMPLEX);
    if DeleteComplexRows(f, st) != [] {
      OneRow(d, DeleteComplexRows(f, st)[0]);
    }
  }

  function Ended(f: Facts, c: Cluster, st: Record, inTree: string -> bool, extraPE: string): Cluster {
    var ours := NamesOf(f.pes, Ours, st, inTree, extraPE);
    var restored := NamesOf(f.pes, Restored, st, inTree, extraPE);
    var left := QueuesLeft(c, QueueToDelete(f.queues, st, ours, inTree), ours, restored, st, inTree);
    Cluster(left, RestoreNamed(PEsLeft(c, ours), restored, st), ComplexesLeft(f, c, st, left))
  }

  lemma DeletedQueueExists(f: Facts, c: Cluster, st: Record, ours: seq<string>, inTree: string -> bool)
    requires Named(c) && Lists(f, c)
    ensures var created := QueueToDelete(f.queues, st, ours, inTree);
      created == "" || (created == DEFAULT_QUEUE == st.createdQueue && created in c.queues
                        && CreatedByShim(c.queues[created], ours, inTree))
    ensures (st.createdQueue == DEFAULT_QUEUE && DEFAULT_QUEUE in c.queues
             && CreatedByShim(c.queues[DEFAULT_QUEUE], ours, inTree))
            ==> QueueToDelete(f.queues, st, ours, inTree) == DEFAULT_QUEUE
  {
    Reading(f, c, DEFAULT_QUEUE);
  }

  /** The plan in four parts. */
  lemma PlanParts(f: Facts, st: Record, inTree: string -> bool, extraPE: string)
    ensures var ours := NamesOf(f.pes, Ours, st, inTree, extraPE);
      var restored := NamesOf(f.pes, Restored, st, inTree, extraPE);
      var created := QueueToDelete(f.queues, st, ours, inTree);
      UninstallPlan(f, st, inTree, extraPE)
      == FlatMap(f.pes, UnknownRow(st, inTree, extraPE))
         + ((FlatMap(f.queues, QueueRows(created, ours, restored, st, inTree)) + DeleteQueueRows(created))
            + (FlatMap(ours, DeletePERow()) + (DeleteComplexRows(f, st) + FlatMap(restored, RestoreRows(st)))))
  {
    var ours := NamesOf(f.pes, Ours, st, inTree, extraPE);
    var restored := NamesOf(f.pes, Restored, st, inTree, extraPE);
    var created := QueueToDelete(f.queues, st, ours, inTree);
    SixParts(FlatMap(f.pes, UnknownRow(st, inTree, extraPE)),
             FlatMap(f.queues, QueueRows(created, ours, restored, st, inTree)), DeleteQueueRows(created),
             FlatMap(ours, DeletePERow()), DeleteComplexRows(f, st), FlatMap(restored, RestoreRows(st)));
  }

  lemma SixParts<X>(a: seq<X>, b: seq<X>, c: seq<X>, d: seq<X>, e: seq<X>, g: seq<X>)
    ensures a + b + c + d + e + g == a + ((b + c) + (d + (e + g)))
  {
  }

  lemma NoRefusalSplit(p0: seq<Change>, q0: seq<Change>, p1: seq<Change>, p2: seq<Change>, p3: seq<Change>,
                       p4: seq<Change>)
    requires NoRefusal(p0 + ((q0 + p1) + (p2 + (p3 + p4))))
    ensures NoRefusal(p0) && NoRefusal(q0) && NoRefusal(p2) && NoRefusal(p4)
  {
    NoRefusalParts(p0, (q0 + p1) + (p2 + (p3 + p4)));
    NoRefusalParts(q0 + p1, p2 + (p3 + p4));
    NoRefusalParts(q0, p1);
    NoRefusalParts(p2, p3 + p4);
    NoRefusalParts(p3, p4);
  }

  lemma AfterFour(c: Cluster, p0: seq<Change>, p1: seq<Change>, p2: seq<Change>, p3: seq<Change>, p4: seq<Change>)
    requires p0 == []
    ensures After(c, p0 + (p1 + (p2 + (p3 + p4)))) == After(After(After(After(c, p1), p2), p3), p4)
  {
    var c1 := After(c, p1);
    AfterConcat(After(c1, p2), p3, p4);
    AfterConcat(c1, p2, p3 + p4);
    AfterConcat(c, p1, p2 + (p3 + p4));
    assert p0 + (p1 + (p2 + (p3 + p4))) == p1 + (p2 + (p3 + p4));
  }

  /** After the queue rows: the deletions and the restores. */
  lemma StagesRun(f: Facts, c: Cluster, st: Record, inTree: string -> bool, ours: seq<string>, restored: seq<string>,
                  created: string)
    requires Named(c) && Lists(f, c) && DistinctNames(ours) && DistinctNames(restored)
    requires forall n | n in ours :: n in c.pes && n !in restored
    requires forall n | n in restored :: n in c.pes
    requires forall n | n in c.queues && n != created :: NoOverrides(c.queues[n], ours, inTree)
    requires NoRefusal(FlatMap(restored, RestoreRows(st)))
    ensures var left := QueuesLeft(c, created, ours, restored, st, inTree);
      After(After(After(c.(queues := left), FlatMap(ours, DeletePERow())), DeleteComplexRows(f, st)),
            FlatMap(restored, RestoreRows(st)))
      == Cluster(left, RestoreNamed(PEsLeft(c, ours), restored, st), ComplexesLeft(f, c, st, left))
  {
    var c1 := c.(queues := QueuesLeft(c, created, ours, restored, st, inTree));
    NotOffered(c, created, ours, restored, st, inTree);
    DeletesRun(c1, ours);
    var c2 := After(c1, FlatMap(ours, DeletePERow()));
    ComplexStage(f, c, st, c2);
    RestoresRun(After(c2, DeleteComplexRows(f, st)), restored, st);
  }

  /** What an uninstall without refusals leaves of any cluster, whatever the record. */
  lemma UninstallEnds(f: Facts, c: Cluster, st: Record, inTree: string -> bool, extraPE: string)
    requires Named(c) && Lists(f, c)
    requires NoRefusal(UninstallPlan(f, st, inTree, extraPE))
    ensures After(c, UninstallPlan(f, st, inTree, extraPE)) == Ended(f, c, st, inTree, extraPE)
    ensures var ours := NamesOf(f.pes, Ours, st, inTree, extraPE);
      forall n | n in c.queues && n != QueueToDelete(f.queues, st, ours, inTree) ::
        NoOverrides(c.queues[n], ours, inTree)
    ensures forall n | n in c.pes :: Judge(c.pes[n], st, inTree, extraPE) != Unknown
  {
    var ours := NamesOf(f.pes, Ours, st, inTree, extraPE);
    var restored := NamesOf(f.pes, Restored, st, inTree, extraPE);
    var created := QueueToDelete(f.queues, st, ours, inTree);
    var p0 := FlatMap(f.pes, UnknownRow(st, inTree, extraPE));
    var q0, p1 := FlatMap(f.queues, QueueRows(created, ours, restored, st, inTree)), DeleteQueueRows(created);
    var p2, p3, p4 := FlatMap(ours, DeletePERow()), DeleteComplexRows(f, st), FlatMap(restored, RestoreRows(st));
    PlanParts(f, st, inTree, extraPE);
    NoRefusalSplit(p0, q0, p1, p2, p3, p4);
    NoUnknown(f, c, st, inTree, extraPE);
    VerdictNames(f, c, Ours, st, inTree, extraPE);
    VerdictNames(f, c, Restored, st, inTree, extraPE);
    DeletedQueueExists(f, c, st, ours, inTree);
    QueueStage(f, c, created, ours, restored, st, inTree);
    StagesRun(f, c, st, inTree, ours, restored, created);
    AfterFour(c, p0, q0 + p1, p2, p3, p4);
  }
}
