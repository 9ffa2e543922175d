/**
 Which installs uninstall gives back, said of one install and what its caller can see
 beforehand; what becomes of installs under two PE names; and what uninstall warns of.
 */
module UninstallCases {
  import opened Text
  import opened Sequences
  import opened Scheduler
  import opened Planner
  import opened InstallRecord
  import opened InstallGoal
  import opened InstallConverges
  import opened Uninstaller
  import opened UninstallEffect
  import opened UninstallLaws
  import opened InstallUndone
  import opened UninstallRestores

  // ---------- One install ----------

  /** Every queue the install is for offers the PE already. */
  predicate AllOffer(c0: Cluster, o: Options) {
    forall n | n in Targets(c0, o) && n in Base(c0, o) :: PEName(o) in Base(c0, o)[n].peList
  }

  /** What a caller can see before an install: its PE is new; or, with --force, the site's own
      runs as nobody else and no queue is created; or, without it, there is nothing to do
      with the site's. */
  predicate GivenBack(c0: Cluster, o: Options) {
    var pe := PEName(o);
    pe !in c0.pes
    || (if o.force then !RunsAsOtherUser(c0.pes[pe].startProcArgs) && !Creates(c0, o)
        else RaiseChanges(c0.pes[pe]) == [] && AllOffer(c0, o))
  }

  /** A first install that went through and was recorded, seen from the clean site. */
  ghost predicate Installed(c0: Cluster, o: Options, inTree: string -> bool, d: Cluster, st: Record) {
    && o.peName != "" && o.createdQueue == ""
    && Situation(c0, d, MarkOf(o.prefix, o.peName), st, inTree)
    && d == Goal(c0, o)
    && (Creates(c0, o) <==> st.createdQueue == DEFAULT_QUEUE)
  }

  /** The install behind it: from a clean site, each call going through, and recorded. */
  ghost predicate InstallRan(c0: Cluster, f: Facts, o: Options, inTree: string -> bool, d: Cluster, st: Record) {
    && o.peName != "" && o.createdQueue == "" && Clean(c0, MarkOf(o.prefix, o.peName), inTree) && Lists(f, c0)
    && inTree(StarterPath(o.prefix)) && inTree(HookPath(o.prefix))
    && d == After(c0, InstallPlan(f, o)) && st == RecordAfter(EMPTY, c0, InstallPlan(f, o), [], true)
  }

  lemma InstallIsTracked(c0: Cluster, f: Facts, o: Options, inTree: string -> bool, d: Cluster, st: Record)
    requires InstallRan(c0, f, o, inTree, d, st)
    ensures Installed(c0, o, inTree, d, st)
  {
    var m, v := MarkOf(o.prefix, o.peName), Visit(o.queues, o.force, Round([], true));
    StarterIsAPath(o.prefix);
    FullRun(f, c0, o);
    StartIsTracked(c0, m);
    VisitStaysTracked(c0, Site(c0, EMPTY), o.prefix, o.peName, _ => f, v, inTree);
    assert Rerun(VisitOptions(o.prefix, o.peName, v), EMPTY) == o;
    RecordNamesQueue(f, c0, o, EMPTY, [], true);
  }

  lemma ForcedIsUndoable(c0: Cluster, o: Options, inTree: string -> bool, d: Cluster, st: Record)
    requires Installed(c0, o, inTree, d, st) && o.force && o.peName in c0.pes
    ensures Undoable(st, o.peName) <==> GivenBack(c0, o)
  {
    var m := MarkOf(o.prefix, o.peName);
    ForcedTakesOver(c0, d, o, m, st, inTree);
    TakenIs(c0, d, m, st, inTree);
    if Creates(c0, o) {
      OwnQueueOffers(c0, o);
      OwnQueueIsAdded(c0, d, m, st);
    }
  }

  lemma UnforcedIsUndoable(c0: Cluster, o: Options, inTree: string -> bool, d: Cluster, st: Record)
    requires Installed(c0, o, inTree, d, st) && !o.force && o.peName in c0.pes
    ensures Undoable(st, o.peName) <==> GivenBack(c0, o)
  {
    var m := MarkOf(o.prefix, o.peName);
    UnforcedTakesNothing(c0, o, inTree, d, st);
    ForeignUndoable(c0, d, m, st);
    PEIsLeft(c0.pes[m.pe], d.pes[m.pe], m, st);
    RaiseIs(c0.pes[m.pe], ReferencePE(m.pe, o.prefix));
    NothingAdded(c0, o, inTree, d, st);
  }

  lemma UnforcedTakesNothing(c0: Cluster, o: Options, inTree: string -> bool, d: Cluster, st: Record)
    requires Installed(c0, o, inTree, d, st) && !o.force && o.peName in c0.pes
    ensures d.pes[o.peName] == Repaired(c0.pes[o.peName], ReferencePE(o.peName, o.prefix), false)
    ensures !TookOver(st, o.peName)
  {
  }

  lemma RaiseIs(have: PE, want: PE)
    ensures Repaired(have, want, false) == have <==> RaiseChanges(have) == []
  {
  }

  lemma NothingAdded(c0: Cluster, o: Options, inTree: string -> bool, d: Cluster, st: Record)
    requires Installed(c0, o, inTree, d, st) && o.peName in c0.pes
    ensures st.peListAdds == [] <==> AllOffer(c0, o)
  {
    var m := MarkOf(o.prefix, o.peName);
    AddsAre(c0, d, m, st);
    forall n | n in d.queues
      ensures PEListAdd(n, m.pe) in st.peListAdds <==> n in Targets(c0, o) && m.pe !in Base(c0, o)[n].peList
    {
      AddedIff(c0, o, inTree, d, st, n);
    }
  }

  lemma AddedIff(c0: Cluster, o: Options, inTree: string -> bool, d: Cluster, st: Record, n: string)
    requires Installed(c0, o, inTree, d, st) && o.peName in c0.pes && n in d.queues
    ensures n in Base(c0, o)
    ensures PEListAdd(n, o.peName) in st.peListAdds <==> n in Targets(c0, o) && o.peName !in Base(c0, o)[n].peList
  {
    var a, m := AimOf(c0, o), MarkOf(o.prefix, o.peName);
    GoalHasQueues(a, n);
    ListIs(a, a.base[n]);
    if n in c0.queues {
      assert TrackedQueue(c0.queues[n], d.queues[n], m, st, true, true);
    } else {
      assert FreshQueue(d.queues[n], m, st, true, true);
    }
  }

  lemma ListIs(a: Aim, q: Queue)
    ensures Wire(q, a).peList == q.peList <==> a.pe in q.peList
  {
  }

  lemma UndoableIff(c0: Cluster, o: Options, inTree: string -> bool, d: Cluster, st: Record)
    requires Installed(c0, o, inTree, d, st)
    ensures Undoable(st, o.peName) <==> GivenBack(c0, o)
  {
    if o.peName !in c0.pes {
      NotTaken(c0, d, MarkOf(o.prefix, o.peName), st);
    } else if o.force {
      ForcedIsUndoable(c0, o, inTree, d, st);
    } else {
      UnforcedIsUndoable(c0, o, inTree, d, st);
    }
  }

  /** One install, gone through and recorded: uninstall gives the site's cluster back if and
      only if, before it, the PE was new, or was to be taken over by --force as one that runs
      as nobody else and without a queue being created, or needed nothing done. */
  lemma InstallIsUndoneIff(c0: Cluster, f: Facts, o: Options, inTree: string -> bool, d: Cluster, st: Record, f2: Facts)
    requires InstallRan(c0, f, o, inTree, d, st) && Lists(f2, d)
    ensures UninstallResult(d, UninstallPlan(f2, st, inTree, "")) == c0 <==> GivenBack(c0, o)
  {
    InstallIsTracked(c0, f, o, inTree, d, st);
    if GivenBack(c0, o) {
      IsGivenBack(c0, o, inTree, d, st, f2);
    } else {
      IsKept(c0, o, inTree, d, st, f2);
    }
  }

  lemma IsGivenBack(c0: Cluster, o: Options, inTree: string -> bool, d: Cluster, st: Record, f2: Facts)
    requires Installed(c0, o, inTree, d, st) && Lists(f2, d) && GivenBack(c0, o)
    ensures UninstallResult(d, UninstallPlan(f2, st, inTree, "")) == c0
  {
    UndoableIff(c0, o, inTree, d, st);
    UndoableIsRestored(f2, c0, d, MarkOf(o.prefix, o.peName), st, inTree);
  }

  lemma IsKept(c0: Cluster, o: Options, inTree: string -> bool, d: Cluster, st: Record, f2: Facts)
    requires Installed(c0, o, inTree, d, st) && Lists(f2, d) && !GivenBack(c0, o)
    ensures UninstallResult(d, UninstallPlan(f2, st, inTree, "")) != c0
  {
    UndoableIff(c0, o, inTree, d, st);
    OthersAreNot(f2, c0, d, MarkOf(o.prefix, o.peName), st, inTree);
  }

  // ---------- The families that are not given back ----------

  /** Without --force the repair of a site's PE is refused, and the queues are wired to it all
      the same: uninstall does not take it off them. */
  lemma RefusedRepairIsNotUndone(c0: Cluster, f: Facts, o: Options, inTree: string -> bool, d: Cluster, st: Record,
                                 f2: Facts, n: string)
    requires InstallRan(c0, f, o, inTree, d, st) && Lists(f2, d)
    requires !o.force && o.peName in c0.pes && n in Targets(c0, o) && n in c0.queues
    requires o.peName !in c0.queues[n].peList
    ensures UninstallResult(d, UninstallPlan(f2, st, inTree, "")) != c0
  {
    InstallIsTracked(c0, f, o, inTree, d, st);
    NotGivenBack(c0, o, n);
    IsKept(c0, o, inTree, d, st, f2);
  }

  lemma NotGivenBack(c0: Cluster, o: Options, n: string)
    requires !o.force && PEName(o) in c0.pes && n in Targets(c0, o) && n in c0.queues
    requires PEName(o) !in c0.queues[n].peList
    ensures !GivenBack(c0, o)
  {
    assert n in Base(c0, o) && Base(c0, o)[n] == c0.queues[n];
  }

  /** The refusal such an install shows. */
  lemma RepairIsRefused(c0: Cluster, f: Facts, o: Options)
    requires Named(c0) && Lists(f, c0) && !o.force && PEName(o) in c0.pes
    requires c0.pes[PEName(o)].startProcArgs != HookPath(o.prefix)
    ensures HasRefusal(InstallPlan(f, o))
  {
    var have, want := c0.pes[PEName(o)], ReferencePE(PEName(o), o.prefix);
    Reading(f, c0, PEName(o));
    var fixes := Fixes(have, want);
    FlatMapMembers(fixes, FixRow(have.name, false));
    var row := FixChange(have.name, fixes[0], false);
    assert fixes[0] in fixes && row in FixRow(have.name, false)(fixes[0]);
    assert row in FlatMap(fixes, FixRow(have.name, false));
    assert row in PEChanges(f, o);
    assert row in InstallPlan(f, o);
    var i :| 0 <= i < |InstallPlan(f, o)| && InstallPlan(f, o)[i] == row;
  }

  /** A site's PE whose start_proc_args run as another user is taken over by --force, and
      never written back: uninstall refuses, and the cluster stays as it is. */
  lemma OtherUsersPEIsNotUndone(c0: Cluster, f: Facts, o: Options, inTree: string -> bool, d: Cluster, st: Record,
                                f2: Facts)
    requires InstallRan(c0, f, o, inTree, d, st) && Lists(f2, d)
    requires o.force && o.peName in c0.pes && RunsAsOtherUser(c0.pes[o.peName].startProcArgs)
    ensures HasRefusal(UninstallPlan(f2, st, inTree, "")) && d != c0
  {
    var m := MarkOf(o.prefix, o.peName);
    InstallIsTracked(c0, f, o, inTree, d, st);
    ForcedTakesOver(c0, d, o, m, st, inTree);
    TakenIs(c0, d, m, st, inTree);
    PlanIsRefused(c0, d, m, st, inTree, f2);
  }

  lemma PlanIsRefused(c0: Cluster, d: Cluster, m: Mark, st: Record, inTree: string -> bool, f2: Facts)
    requires Situation(c0, d, m, st, inTree) && Lists(f2, d) && Refuses(c0, m, st)
    ensures HasRefusal(UninstallPlan(f2, st, inTree, ""))
  {
    PlanRefuses(f2, c0, d, m, st, inTree);
    NoRefusalIs(UninstallPlan(f2, st, inTree, ""));
  }

  /** A run with --force that stopped before recording, and replaced a starter of the site's:
      what it was is written nowhere, and uninstall leaves the queue without one. */
  lemma UnrecordedStarterIsLost(c0: Cluster, f: Facts, o: Options, inTree: string -> bool, d: Cluster, st: Record,
                                f2: Facts, n: string)
    requires o.createdQueue == "" && Clean(c0, MarkOf(o.prefix, PEName(o)), inTree) && Lists(f, c0)
    requires inTree(StarterPath(o.prefix)) && inTree(HookPath(o.prefix))
    requires d == After(c0, InstallPlan(f, o)) && st == RecordAfter(EMPTY, c0, InstallPlan(f, o), [], false)
    requires o.force && n in Targets(c0, o) && n in c0.queues && c0.queues[n].starterMethod != ""
    requires Lists(f2, d)
    ensures UninstallResult(d, UninstallPlan(f2, st, inTree, "")) != c0
  {
    FullRun(f, c0, o);
    GoalIsNamed(c0, o, f);
    WiredInGoal(c0, o, n);
    IntendReplacesNothing(EMPTY, InstallPlan(f, o));
    RecordNamesQueue(f, c0, o, EMPTY, [], false);
    StarterPathIs(o.prefix);
    StarterIsLost(f2, c0, d, st, inTree, n);
  }

  lemma StarterPathIs(prefix: string)
    ensures StarterPath(prefix) != ""
  {
    StarterIsAPath(prefix);
  }

  lemma WiredInGoal(c0: Cluster, o: Options, n: string)
    requires o.force && n in Targets(c0, o) && n in c0.queues
    ensures n in Goal(c0, o).queues && Goal(c0, o).queues[n].starterMethod == StarterPath(o.prefix)
    ensures n == DEFAULT_QUEUE ==> !Creates(c0, o)
  {
    GoalHasQueues(AimOf(c0, o), n);
  }

  lemma {:induction false} IntendReplacesNothing(st: Record, rows: seq<Change>)
    ensures Intend(st, rows).replaced == st.replaced
    decreases |rows|
  {
    if rows != [] {
      IntendReplacesNothing(IntendOne(st, rows[0]), rows[1..]);
    }
  }

  lemma StarterIsLost(f2: Facts, c0: Cluster, d: Cluster, st: Record, inTree: string -> bool, n: string)
    requires Named(d) && Lists(f2, d) && n in d.queues && StartsInTree(d.queues[n], inTree) && st.replaced == []
    requires n == DEFAULT_QUEUE ==> st.createdQueue != DEFAULT_QUEUE
    requires n in c0.queues && c0.queues[n].starterMethod != "" && !StartsInTree(c0.queues[n], inTree)
    ensures UninstallResult(d, UninstallPlan(f2, st, inTree, "")) != c0
  {
    if !HasRefusal(UninstallPlan(f2, st, inTree, "")) {
      EndIsNot(f2, c0, d, st, inTree, n);
    }
  }

  lemma EndIsNot(f2: Facts, c0: Cluster, d: Cluster, st: Record, inTree: string -> bool, n: string)
    requires Named(d) && Lists(f2, d) && n in d.queues && StartsInTree(d.queues[n], inTree) && st.replaced == []
    requires n == DEFAULT_QUEUE ==> st.createdQueue != DEFAULT_QUEUE
    requires n in c0.queues && c0.queues[n].starterMethod != ""
    requires !HasRefusal(UninstallPlan(f2, st, inTree, ""))
    ensures After(d, UninstallPlan(f2, st, inTree, "")) != c0
  {
    EndsThere(f2, d, st, inTree, "", After(d, UninstallPlan(f2, st, inTree, "")));
    EndsWithout(f2, d, st, inTree, n);
  }

  /** Uninstall leaves a queue without a starter where none is recorded. */
  lemma EndsWithout(f2: Facts, d: Cluster, st: Record, inTree: string -> bool, n: string)
    requires Named(d) && Lists(f2, d) && n in d.queues && StartsInTree(d.queues[n], inTree) && st.replaced == []
    requires n == DEFAULT_QUEUE ==> st.createdQueue != DEFAULT_QUEUE
    ensures var left := Ended(f2, d, st, inTree, "").queues; n in left && left[n].starterMethod == ""
  {
    assert FromNone("NONE") == "";
  }

  lemma EndsThere(f: Facts, c: Cluster, st: Record, inTree: string -> bool, extraPE: string, d: Cluster)
    requires Named(c) && Lists(f, c) && !HasRefusal(UninstallPlan(f, st, inTree, extraPE))
    requires d == After(c, UninstallPlan(f, st, inTree, extraPE))
    ensures d == Ended(f, c, st, inTree, extraPE)
  {
    NoRefusalIs(UninstallPlan(f, st, inTree, extraPE));
    UninstallEnds(f, c, st, inTree, extraPE);
  }

  /** Two such sites: a queue "all.q" and a PE "make" -- which in the second runs as root. */
  lemma NotUndoneExamples()
    ensures var q := Queue("all.q", [], [], "", [], [], "");
      var make := PE("make", 4, "NONE", "NONE", "$round_robin", true, false, false, false);
      var c0 := Cluster(map["all.q" := q], map["make" := make], map[]);
      var rooted := make.(startProcArgs := "root@/x");
      var c1 := Cluster(map["all.q" := q], map["make" := rooted], map[]);
      var o := Options("/s", "make", ["all.q"], "", false);
      var inTree := (p: string) => p == StarterPath("/s") || p == HookPath("/s");
      && Clean(c0, MarkOf("/s", "make"), inTree) && "all.q" in Targets(c0, o)
      && Clean(c1, MarkOf("/s", "make"), inTree) && RunsAsOtherUser(rooted.startProcArgs)
  {
    assert |HookPath("/s")| > 10 && |StarterPath("/s")| > 10;
    assert ["all.q"] != [ALL_QUEUES] by {
      assert ["all.q"][0][3] != ALL_QUEUES[0];
    }
    RootedRuns();
  }

  lemma RootedRuns()
    ensures RunsAsOtherUser("root@/x")
  {
    var v := "root" + "@" + "/x";
    assert v == "root@/x";
    OneWord(v, "");
    assert "" + v == v;
    IndexOfFirst("root", '@', "/x");
    UserPrefix(v);
  }

  lemma UserPrefix(v: string)
    requires Fields(v) == [v] && IndexOf(v, '@') == 4 && |v| > 4 && '/' !in v[..4]
    ensures RunsAsOtherUser(v)
  {
  }

  // ---------- Two PE names ----------

  lemma {:induction false} RecordedTargets(st: Record, outs: seq<Outcome>, pe: string)
    requires forall x | x in outs && x.change.kind == SetPEAttr :: x.change.target == pe
    ensures forall r | r in RecordAll(st, outs).replaced ::
      r in st.replaced || r.target == PEKey(pe) || exists n :: r.target == QueueKey(n)
    decreases |outs|
  {
    if outs != [] {
      assert outs[0] in outs;
      RecordedTargets(RecordOne(st, outs[0]), outs[1..], pe);
      assert forall x | x in outs[1..] :: x in outs;
    }
  }

  lemma {:induction false} RecordedPE(st: Record, outs: seq<Outcome>, pe: string)
    requires st.createdPE == pe && forall x | x in outs && x.change.kind == AddPE :: x.change.target == pe
    ensures RecordAll(st, outs).createdPE == pe
    decreases |outs|
  {
    if outs != [] {
      assert outs[0] in outs;
      assert forall x | x in outs[1..] :: x in outs;
      RecordedPE(RecordOne(st, outs[0]), outs[1..], pe);
    }
  }

  lemma {:induction false} IntendsPE(st: Record, rows: seq<Change>, pe: string)
    requires forall ch | ch in rows && ch.kind == AddPE :: ch.target == pe
    ensures Intend(st, rows).createdPE == (if exists ch :: ch in rows && ch.kind == AddPE then pe else st.createdPE)
    ensures Intend(st, rows).replaced == st.replaced
    decreases |rows|
  {
    if rows != [] {
      assert rows[0] in rows;
      assert forall ch :: ch in rows <==> ch == rows[0] || ch in rows[1..];
      IntendsPE(IntendOne(st, rows[0]), rows[1..], pe);
    }
  }

  /** What a run that creates its PE records of PEs: its own name, and no other's values. */
  lemma CreatingRunRecords(f: Facts, c: Cluster, o: Options, st: Record, fails: seq<bool>, other: string)
    requires Named(c) && Lists(f, c) && PEName(o) !in c.pes && other != PEName(o)
    requires forall r | r in st.replaced :: r.target != PEKey(other)
    ensures var st2 := RecordAfter(st, c, InstallPlan(f, o), fails, true);
      st2.createdPE == PEName(o) && !TookOver(st2, other)
  {
    var plan, pe := InstallPlan(f, o), PEName(o);
    var outs := Outcomes(c, plan, fails);
    PlanIsPlanned(f, c, o);
    forall ch | ch in plan && (ch.kind == AddPE || ch.kind == SetPEAttr)
      ensures ch.target == pe
    {
      assert Planned(c, AimOf(c, o), ch);
    }
    Reading(f, c, pe);
    var row := PEChanges(f, o)[0];
    assert row in PEChanges(f, o) && row in plan && row.kind == AddPE;
    IntendsPE(st, plan, pe);
    OutcomeChanges(c, plan, fails);
    RecordedPE(Intend(st, plan), outs, pe);
    RecordedTargets(Intend(st, plan), outs, pe);
    var st2 := RecordAll(Intend(st, plan), outs);
    forall r | r in st2.replaced
      ensures r.target != PEKey(other)
    {
      KeysDiffer(other, pe);
      if n :| r.target == QueueKey(n) {
        KeysDiffer(n, other);
      }
    }
    OldOfIsRecorded(st2.replaced, PEKey(other), StartProcArgs);
  }

  lemma UnknownRefuses(f: Facts, c: Cluster, st: Record, inTree: string -> bool, extraPE: string, n: string)
    requires Named(c) && Lists(f, c) && n in c.pes && Judge(c.pes[n], st, inTree, extraPE) == Unknown
    ensures HasRefusal(UninstallPlan(f, st, inTree, extraPE))
  {
    var plan := UninstallPlan(f, st, inTree, extraPE);
    NoRefusalIs(plan);
    if NoRefusal(plan) {
      UninstallEnds(f, c, st, inTree, extraPE);
    }
  }

  /** Two installs under two PE names, each creating its own: the record names the second
      only, and uninstall refuses over the first -- unless it is slurm-shim or is named. */
  lemma TwoNamesRefuse(c0: Cluster, f: Facts, o1: Options, inTree: string -> bool, c1: Cluster, st1: Record,
                       f1: Facts, o2: Options, c2: Cluster, st2: Record, f2: Facts, extraPE: string)
    requires InstallRan(c0, f, o1, inTree, c1, st1) && Lists(f1, c1)
    requires o1.peName !in c0.pes && o2.peName !in c0.pes && o2.peName != "" && o1.peName != o2.peName
    requires o1.peName != DEFAULT_PE && o1.peName != extraPE
    requires c2 == After(c1, InstallPlan(f1, o2)) && st2 == RecordAfter(st1, c1, InstallPlan(f1, o2), [], true)
    requires Lists(f2, c2)
    ensures HasRefusal(UninstallPlan(f2, st2, inTree, extraPE))
  {
    InstallIsTracked(c0, f, o1, inTree, c1, st1);
    FirstPEIs(c0, o1, inTree, c1, st1);
    CreatingRunRecords(f1, c1, o2, st1, [], o1.peName);
    FullRun(f1, c1, o2);
    GoalIsNamed(c1, o2, f1);
    UnknownRefuses(f2, c2, st2, inTree, extraPE, o1.peName);
  }

  lemma FirstPEIs(c0: Cluster, o: Options, inTree: string -> bool, d: Cluster, st: Record)
    requires Installed(c0, o, inTree, d, st) && o.peName !in c0.pes
    ensures o.peName in d.pes && inTree(d.pes[o.peName].startProcArgs) && d.pes[o.peName].name == o.peName
    ensures d.pes.Keys == c0.pes.Keys + {o.peName}
    ensures forall r | r in st.replaced :: r.target != PEKey(o.peName)
  {
  }

  lemma GoalIsNamed(c: Cluster, o: Options, f: Facts)
    requires Named(c) && Lists(f, c)
    ensures Named(Goal(c, o))
  {
    var a := AimOf(c, o);
    StartIsBetween(c, o);
    PlanIsPlanned(f, c, o);
    RunStaysBetween(c, c, a, InstallPlan(f, o), []);
    FullRun(f, c, o);
    BetweenIsNamed(c, Goal(c, o), a);
  }

  // ---------- What uninstall warns of ----------

  /** Uninstall warns that slurm.q is no longer the shim's exactly when it stays (Ended is the
      cluster uninstall leaves) although the record says install created it; and that it is
      unwired but kept exactly when it stays and started in the tree. */
  lemma KeptQueueIsWarnedOf(f: Facts, c: Cluster, st: Record, inTree: string -> bool, extraPE: string)
    requires Named(c) && Lists(f, c)
    ensures var warnings, left := UninstallWarnings(f, st, inTree, extraPE), Ended(f, c, st, inTree, extraPE).queues;
      && (NotTheShims in warnings <==> st.createdQueue == DEFAULT_QUEUE && DEFAULT_QUEUE in left)
      && (UnwiredButKept in warnings <==>
            DEFAULT_QUEUE in left && DEFAULT_QUEUE in c.queues && StartsInTree(c.queues[DEFAULT_QUEUE], inTree))
  {
    var created := QueueToDelete(f.queues, st, NamesOf(f.pes, Ours, st, inTree, extraPE), inTree);
    KeptIff(f, c, st, inTree, extraPE, created);
    WarningsAre(f, c, st, inTree, extraPE, created);
  }

  lemma WarningsAre(f: Facts, c: Cluster, st: Record, inTree: string -> bool, extraPE: string, created: string)
    requires Named(c) && Lists(f, c)
    requires created == QueueToDelete(f.queues, st, NamesOf(f.pes, Ours, st, inTree, extraPE), inTree)
    ensures var warnings := UninstallWarnings(f, st, inTree, extraPE);
      && (NotTheShims in warnings <==>
            st.createdQueue == DEFAULT_QUEUE && DEFAULT_QUEUE in c.queues && created == "")
      && (UnwiredButKept in warnings <==>
            created == "" && DEFAULT_QUEUE in c.queues && StartsInTree(c.queues[DEFAULT_QUEUE], inTree))
  {
    Reading(f, c, DEFAULT_QUEUE);
    UnwiredIff(f, c, created, inTree);
  }

  lemma KeptIff(f: Facts, c: Cluster, st: Record, inTree: string -> bool, extraPE: string, created: string)
    requires Named(c) && Lists(f, c)
    requires created == QueueToDelete(f.queues, st, NamesOf(f.pes, Ours, st, inTree, extraPE), inTree)
    ensures created == "" || created == DEFAULT_QUEUE
    ensures DEFAULT_QUEUE != ""
    ensures DEFAULT_QUEUE in Ended(f, c, st, inTree, extraPE).queues <==> DEFAULT_QUEUE in c.queues && created == ""
  {
    assert |DEFAULT_QUEUE| > 0;
  }

  lemma UnwiredIff(f: Facts, c: Cluster, created: string, inTree: string -> bool)
    requires Named(c) && Lists(f, c)
    ensures var warnings := FlatMap(f.queues, UnwiredWarning(created, inTree));
      && NotTheShims !in warnings
      && (UnwiredButKept in warnings <==>
            created == "" && DEFAULT_QUEUE in c.queues && StartsInTree(c.queues[DEFAULT_QUEUE], inTree))
  {
    var warnOf := UnwiredWarning(created, inTree);
    FlatMapMembers(f.queues, warnOf);
    if created == "" && DEFAULT_QUEUE in c.queues && StartsInTree(c.queues[DEFAULT_QUEUE], inTree) {
      assert c.queues[DEFAULT_QUEUE] in f.queues && UnwiredButKept in warnOf(c.queues[DEFAULT_QUEUE]);
    }
    if UnwiredButKept in FlatMap(f.queues, warnOf) {
      var q :| q in f.queues && UnwiredButKept in warnOf(q);
      assert q.name == DEFAULT_QUEUE && c.queues[q.name] == q;
    }
  }
}
