/**
 What an install does to a site, in the site's own terms: which queues it wires and how,
 when it adds a queue of its own, what becomes of the PE, and exactly when it refuses.
 Nothing here speaks of the plan's parts or of the goal it is proved to reach.
 */
module InstallSeen {
  import opened Text
  import opened Sequences
  import opened Scheduler
  import opened Planner
  import opened InstallGoal
  import opened InstallConverges

  /** An install that went through: read, planned, and every call made. */
  ghost predicate Ran(c: Cluster, f: Facts, o: Options, d: Cluster) {
    Named(c) && Lists(f, c) && d == After(c, InstallPlan(f, o))
  }

  lemma ReachesGoal(c: Cluster, f: Facts, o: Options, d: Cluster)
    requires Ran(c, f, o, d)
    ensures d == Goal(c, o)
  {
    FullRun(f, c, o);
  }

  // ---------- The queue of its own ----------

  /** A job enters a queue with this complex only if it asks for it. */
  predicate OnlyOnRequest(x: Complex) {
    EqualFold(x.kind, "BOOL") && EqualFold(x.requestable, "FORCED")
  }

  /** No --queue, no queue wired to this tree, and no slurm.q. */
  predicate First(c: Cluster, o: Options) {
    && o.queues == [] && DEFAULT_QUEUE !in c.queues
    && forall n | n in c.queues :: c.queues[n].starterMethod != o.prefix + "/bin/slurm-shim-starter"
  }

  predicate ComplexFits(c: Cluster) {
    SHIM_COMPLEX in c.complexes ==> OnlyOnRequest(c.complexes[SHIM_COMPLEX])
  }

  lemma FirstIs(c: Cluster, o: Options)
    ensures First(c, o) <==> FirstRun(c, o)
    ensures Creates(c, o) <==> First(c, o) && ComplexFits(c)
  {
    var w := WiredSet(c, StarterPath(o.prefix));
    assert w == {} <==> forall n | n in c.queues :: c.queues[n].starterMethod != StarterPath(o.prefix) by {
      if n :| n in c.queues && c.queues[n].starterMethod == StarterPath(o.prefix) {
        assert n in w;
      }
    }
  }

  /** Whatever install adds a queue, jobs enter it only if they ask for the shim. */
  lemma OwnQueueIsByRequest(c: Cluster, f: Facts, o: Options, d: Cluster)
    requires Ran(c, f, o, d) && DEFAULT_QUEUE !in c.queues && DEFAULT_QUEUE in d.queues
    ensures SHIM_COMPLEX in d.complexes && OnlyOnRequest(d.complexes[SHIM_COMPLEX])
    ensures d.queues[DEFAULT_QUEUE].complexValues == [SHIM_REQUEST]
  {
    ReachesGoal(c, f, o, d);
    FirstIs(c, o);
    assert EqualFold("BOOL", "BOOL") && EqualFold("FORCED", "FORCED");
  }

  /** The queue install adds: it offers the PE, starts jobs in the tree, and is open to jobs
      that ask for the shim; the rest is all.q's, if there is one. */
  function OwnQueue(c: Cluster, o: Options, pe: string): Queue {
    Queue(DEFAULT_QUEUE, [pe], [], o.prefix + "/bin/slurm-shim-starter", [], [SHIM_REQUEST],
          if CLONE_SOURCE in c.queues then c.queues[CLONE_SOURCE].settings else "@allhosts")
  }

  /** On a first install without --queue: a queue is added exactly when no job can enter it
      unasked, and otherwise the install refuses and changes no queue and no complex. */
  lemma FirstInstallAddsIff(c: Cluster, f: Facts, o: Options, d: Cluster)
    requires Ran(c, f, o, d) && First(c, o)
    ensures DEFAULT_QUEUE in d.queues <==> ComplexFits(c)
    ensures ComplexFits(c) ==>
      && d.queues == c.queues[DEFAULT_QUEUE := OwnQueue(c, o, if o.peName == "" then DEFAULT_PE else o.peName)]
      && d.complexes == (if SHIM_COMPLEX in c.complexes then c.complexes
                         else c.complexes[SHIM_COMPLEX := Complex(SHIM_COMPLEX, "BOOL", "FORCED")])
    ensures !ComplexFits(c) ==> HasRefusal(InstallPlan(f, o)) && d.queues == c.queues && d.complexes == c.complexes
  {
    ReachesGoal(c, f, o, d);
    FirstIs(c, o);
    if ComplexFits(c) {
      OwnQueueIsWired(c, o);
    } else {
      assert GoalQueues(AimOf(c, o)) == c.queues;
      ComplexRefused(c, f, o);
    }
  }

  lemma OwnQueueIsWired(c: Cluster, o: Options)
    requires Creates(c, o)
    ensures GoalQueues(AimOf(c, o)) == c.queues[DEFAULT_QUEUE := OwnQueue(c, o, PEName(o))]
  {
    var a := AimOf(c, o);
    assert Including([], PEName(o)) == [PEName(o)];
    assert Wire(a.base[DEFAULT_QUEUE], a) == OwnQueue(c, o, PEName(o));
  }

  lemma ComplexRefused(c: Cluster, f: Facts, o: Options)
    requires Named(c) && Lists(f, c) && First(c, o) && !ComplexFits(c)
    ensures HasRefusal(InstallPlan(f, o))
  {
    FirstIs(c, o);
    SelectsWired(f, c, StarterPath(o.prefix));
    Reading(f, c, DEFAULT_QUEUE);
    Reading(f, c, SHIM_COMPLEX);
    var s := Select(f, o, StarterPath(o.prefix));
    assert s == FirstInstall(f) && s.changes[0].kind == Refused;
    InMiddle(PEChanges(f, o), s.changes, FlatMap(s.targets, WireRows(o)), s.changes[0]);
  }

  lemma InMiddle(x: seq<Change>, y: seq<Change>, z: seq<Change>, ch: Change)
    requires ch.kind == Refused && (ch in x || ch in y || ch in z)
    ensures HasRefusal(x + y + z)
  {
    var all := x + y + z;
    assert ch in all;
    var i :| 0 <= i < |all| && all[i] == ch;
  }

  // ---------- The queues that are there ----------

  /** The queues --queue and what is wired already choose. */
  predicate Chosen(c: Cluster, o: Options, n: string)
    requires n in c.queues
  {
    var starter := o.prefix + "/bin/slurm-shim-starter";
    if o.queues == [ALL_QUEUES] then true
    else if o.queues != [] then n in o.queues && ALL_QUEUES !in o.queues
    else
      || c.queues[n].starterMethod == starter
      || (n == DEFAULT_QUEUE == o.createdQueue && forall m | m in c.queues :: c.queues[m].starterMethod != starter)
  }

  lemma ChosenIs(c: Cluster, o: Options, n: string)
    requires n in c.queues
    ensures n in Targets(c, o) <==> Chosen(c, o, n)
  {
    var w := WiredSet(c, StarterPath(o.prefix));
    if w == {} {
      assert forall m | m in c.queues :: m !in w && c.queues[m].starterMethod != StarterPath(o.prefix);
    } else {
      var m :| m in w;
      assert m in c.queues && c.queues[m].starterMethod == StarterPath(o.prefix);
    }
  }

  /** Every queue of the site, after an install: a chosen one offers the PE, and starts jobs in
      the tree if it had no starter or --force was given; nothing else of it changes, and no
      other queue changes at all. */
  lemma QueueAfterInstall(c: Cluster, f: Facts, o: Options, d: Cluster, n: string)
    requires Ran(c, f, o, d) && n in c.queues
    ensures n in d.queues
    ensures !Chosen(c, o, n) ==> d.queues[n] == c.queues[n]
    ensures Chosen(c, o, n) ==>
      var q, pe := c.queues[n], if o.peName == "" then DEFAULT_PE else o.peName;
      d.queues[n] == q.(peList := if pe in q.peList then q.peList else q.peList + [pe],
                        starterMethod := if q.starterMethod == "" || o.force then o.prefix + "/bin/slurm-shim-starter"
                                         else q.starterMethod)
  {
    ReachesGoal(c, f, o, d);
    ChosenIs(c, o, n);
  }

  /** A queue the site did not have is slurm.q, from a first install. */
  lemma NothingElseIsAdded(c: Cluster, f: Facts, o: Options, d: Cluster)
    requires Ran(c, f, o, d)
    ensures forall n | n in d.queues && n !in c.queues :: n == DEFAULT_QUEUE && First(c, o)
    ensures forall n | n in c.complexes :: n in d.complexes && d.complexes[n] == c.complexes[n]
    ensures forall n | n in d.complexes && n !in c.complexes :: n == SHIM_COMPLEX && First(c, o)
  {
    ReachesGoal(c, f, o, d);
    GoalAdds(c, o);
  }

  lemma GoalAdds(c: Cluster, o: Options)
    ensures GoalQueues(AimOf(c, o)).Keys == Base(c, o).Keys
    ensures forall n | n in Base(c, o) && n !in c.queues :: n == DEFAULT_QUEUE && First(c, o)
    ensures forall n | n in c.complexes :: n in GoalComplexes(c, o) && GoalComplexes(c, o)[n] == c.complexes[n]
    ensures forall n | n in GoalComplexes(c, o) && n !in c.complexes :: n == SHIM_COMPLEX && First(c, o)
  {
    FirstIs(c, o);
  }

  // ---------- The PE ----------

  /** The PE after an install: a new one as the shim needs it, a site's own with its hook and
      control_slaves written over by --force only; install's own former cap of 999 is raised.
      No other PE changes. */
  lemma PEAfterInstall(c: Cluster, f: Facts, o: Options, d: Cluster)
    requires Ran(c, f, o, d)
    ensures var pe, hook := if o.peName == "" then DEFAULT_PE else o.peName, o.prefix + "/bin/slurm-shim-env";
      && d.pes.Keys == c.pes.Keys + {pe}
      && (forall n | n in c.pes && n != pe :: d.pes[n] == c.pes[n])
      && (pe !in c.pes ==> d.pes[pe] == PE(pe, 9999999, hook, "NONE", "$round_robin", true, false, false, false))
      && (pe in c.pes ==>
            var was := c.pes[pe];
            d.pes[pe] == was.(slots := if pe == DEFAULT_PE && was.slots == 999 then 9999999 else was.slots,
                              startProcArgs := if o.force then hook else was.startProcArgs,
                              controlSlaves := was.controlSlaves || o.force))
  {
    ReachesGoal(c, f, o, d);
  }

  // ---------- Refusals ----------

  /** A site's PE that would have to be repaired, without --force. */
  predicate PERefused(c: Cluster, o: Options) {
    var pe := if o.peName == "" then DEFAULT_PE else o.peName;
    pe in c.pes && !o.force
    && (c.pes[pe].startProcArgs != o.prefix + "/bin/slurm-shim-env" || !c.pes[pe].controlSlaves)
  }

  /** A choice of queues that is none: "all" among others, a queue that is not there, a slurm.q
      that is not install's, or a complex of another meaning. */
  predicate ChoiceRefused(c: Cluster, o: Options) {
    if o.queues != [] then
      o.queues != [ALL_QUEUES] && (ALL_QUEUES in o.queues || exists n :: n in o.queues && n !in c.queues)
    else
      && (forall n | n in c.queues :: c.queues[n].starterMethod != o.prefix + "/bin/slurm-shim-starter")
      && (if DEFAULT_QUEUE in c.queues then o.createdQueue != DEFAULT_QUEUE else !ComplexFits(c))
  }

  /** A chosen queue with a starter of the site's, without --force. */
  predicate StarterRefused(c: Cluster, o: Options) {
    !o.force && exists n :: n in c.queues && Chosen(c, o, n) && c.queues[n].starterMethod != ""
                            && c.queues[n].starterMethod != o.prefix + "/bin/slurm-shim-starter"
  }

  lemma RefusalParts(x: seq<Change>, y: seq<Change>, z: seq<Change>)
    ensures HasRefusal(x + y + z) <==> HasRefusal(x) || HasRefusal(y) || HasRefusal(z)
  {
    var all := x + y + z;
    if HasRefusal(all) {
      var i :| 0 <= i < |all| && all[i].kind == Refused;
      assert all[i] == if i < |x| then x[i] else if i < |x| + |y| then y[i - |x|] else z[i - |x| - |y|];
    }
    if HasRefusal(x) {
      var i :| 0 <= i < |x| && x[i].kind == Refused;
      InMiddle(x, y, z, x[i]);
    }
    if HasRefusal(y) {
      var i :| 0 <= i < |y| && y[i].kind == Refused;
      InMiddle(x, y, z, y[i]);
    }
    if HasRefusal(z) {
      var i :| 0 <= i < |z| && z[i].kind == Refused;
      InMiddle(x, y, z, z[i]);
    }
  }

  /** A refused row among those of a list. */
  lemma RefusedAmong<X>(xs: seq<X>, rows: X -> seq<Change>)
    ensures HasRefusal(FlatMap(xs, rows)) <==> exists x :: x in xs && HasRefusal(rows(x))
  {
    var all := FlatMap(xs, rows);
    FlatMapMembers(xs, rows);
    if HasRefusal(all) {
      var i :| 0 <= i < |all| && all[i].kind == Refused;
      assert all[i] in all;
      var x :| x in xs && all[i] in rows(x);
      var j :| 0 <= j < |rows(x)| && rows(x)[j] == all[i];
    }
    if x :| x in xs && HasRefusal(rows(x)) {
      var j :| 0 <= j < |rows(x)| && rows(x)[j].kind == Refused;
      assert rows(x)[j] in all;
      var i :| 0 <= i < |all| && all[i] == rows(x)[j];
    }
  }

  lemma PEPartRefuses(c: Cluster, f: Facts, o: Options)
    requires Named(c) && Lists(f, c)
    ensures HasRefusal(PEChanges(f, o)) <==> PERefused(c, o)
  {
    var pe, want := PEName(o), ReferencePE(PEName(o), o.prefix);
    Reading(f, c, pe);
    if pe in c.pes {
      RepairRefuses(c.pes[pe], want, o.force);
    }
  }

  lemma RepairRefuses(have: PE, want: PE, force: bool)
    ensures HasRefusal(RepairChanges(have, want, force)) <==> !force && Fixes(have, want) != []
  {
    var fixes, raise := Fixes(have, want), RaiseChanges(have);
    RefusedAmong(fixes, FixRow(have.name, force));
    RefusalParts(raise, FlatMap(fixes, FixRow(have.name, force)), []);
    if fixes != [] {
      assert RepairChanges(have, want, force) == raise + FlatMap(fixes, FixRow(have.name, force)) + [];
      assert fixes[0] in fixes && FixRow(have.name, force)(fixes[0])[0].kind == if force then SetPEAttr else Refused;
    }
  }

  lemma MissingRefuses(c: Cluster, f: Facts, names: seq<string>)
    requires Named(c) && Lists(f, c)
    ensures HasRefusal(FlatMap(names, MissingIn(f.queues))) <==> exists n :: n in names && n !in c.queues
  {
    RefusedAmong(names, MissingIn(f.queues));
    forall n | n in names
      ensures HasRefusal(MissingIn(f.queues)(n)) <==> n !in c.queues
    {
      Reading(f, c, n);
      if n !in c.queues {
        assert MissingIn(f.queues)(n)[0].kind == Refused;
      }
    }
  }

  lemma ChoicePartRefuses(c: Cluster, f: Facts, o: Options)
    requires Named(c) && Lists(f, c)
    ensures HasRefusal(Select(f, o, StarterPath(o.prefix)).changes) <==> ChoiceRefused(c, o)
  {
    var s := Select(f, o, StarterPath(o.prefix));
    if o.queues != [] {
      MissingRefuses(c, f, o.queues);
      if o.queues != [ALL_QUEUES] && ALL_QUEUES in o.queues {
        assert s.changes[0].kind == Refused;
      }
    } else {
      OwnChoiceRefuses(c, f, o);
    }
  }

  lemma OwnChoiceRefuses(c: Cluster, f: Facts, o: Options)
    requires Named(c) && Lists(f, c) && o.queues == []
    ensures HasRefusal(Select(f, o, StarterPath(o.prefix)).changes) <==> ChoiceRefused(c, o)
  {
    SelectsWired(f, c, StarterPath(o.prefix));
    if w :| w in WiredSet(c, StarterPath(o.prefix)) {
      assert c.queues[w].starterMethod == StarterPath(o.prefix);
    } else {
      assert forall n | n in c.queues :: n !in WiredSet(c, StarterPath(o.prefix));
      Reading(f, c, DEFAULT_QUEUE);
      if DEFAULT_QUEUE !in c.queues {
        Reading(f, c, SHIM_COMPLEX);
        FirstRefuses(f);
      } else if o.createdQueue != DEFAULT_QUEUE {
        assert Select(f, o, StarterPath(o.prefix)).changes[0].kind == Refused;
      }
    }
  }

  lemma FirstRefuses(f: Facts)
    ensures var x := FindComplex(f.complexes, SHIM_COMPLEX);
      HasRefusal(FirstInstall(f).changes) <==> x.Some? && !OnlyOnRequest(x.value)
  {
    var x, rows := FindComplex(f.complexes, SHIM_COMPLEX), FirstInstall(f).changes;
    if x.Some? && !OnlyOnRequest(x.value) {
      assert rows[0].kind == Refused;
    } else {
      assert forall ch | ch in rows :: ch.kind == AddComplex || ch.kind == AddQueue;
      assert forall i | 0 <= i < |rows| :: rows[i] in rows;
    }
  }

  lemma WirePartRefuses(c: Cluster, f: Facts, o: Options)
    requires Named(c) && Lists(f, c)
    ensures HasRefusal(FlatMap(Select(f, o, StarterPath(o.prefix)).targets, WireRows(o))) <==> StarterRefused(c, o)
  {
    var starter := StarterPath(o.prefix);
    var targets := Select(f, o, starter).targets;
    RefusedAmong(targets, WireRows(o));
    SelectionIsTargets(f, c, o);
    forall q | q in targets
      ensures HasRefusal(WireRows(o)(q)) <==> !o.force && q.starterMethod != "" && q.starterMethod != starter
    {
      StarterRowRefuses(o, q);
    }
    if StarterRefused(c, o) {
      var n :| n in c.queues && Chosen(c, o, n) && c.queues[n].starterMethod != ""
               && c.queues[n].starterMethod != starter;
      ChosenIs(c, o, n);
      assert n in NameSet(targets);
      var q :| q in targets && q.name == n;
      assert Shows(q, Base(c, o)) && Base(c, o)[n] == c.queues[n];
      assert HasRefusal(WireRows(o)(q));
    }
    if q :| q in targets && HasRefusal(WireRows(o)(q)) {
      TargetIsQueue(c, o, targets, q);
    }
  }

  lemma StarterRowRefuses(o: Options, q: Queue)
    ensures HasRefusal(WireRows(o)(q))
       <==> !o.force && q.starterMethod != "" && q.starterMethod != StarterPath(o.prefix)
  {
    var rows := WireRows(o)(q);
    assert |rows| == 2 && rows[0].kind != Refused;
    assert HasRefusal(rows) <==> rows[1].kind == Refused;
  }

  /** A target with a starter was there before. */
  lemma TargetIsQueue(c: Cluster, o: Options, targets: seq<Queue>, q: Queue)
    requires NameSet(targets) == Targets(c, o) && q in targets && Shows(q, Base(c, o)) && q.starterMethod != ""
    ensures q.name in c.queues && c.queues[q.name].starterMethod == q.starterMethod && Chosen(c, o, q.name)
  {
    assert q.name in NameSet(targets);
    ChosenIs(c, o, q.name);
  }

  /** An install refuses exactly over a site's PE, a choice of queues, or a site's starter. */
  lemma InstallRefusesIff(c: Cluster, f: Facts, o: Options)
    requires Named(c) && Lists(f, c)
    ensures HasRefusal(InstallPlan(f, o)) <==> PERefused(c, o) || ChoiceRefused(c, o) || StarterRefused(c, o)
  {
    var s := Select(f, o, StarterPath(o.prefix));
    RefusalParts(PEChanges(f, o), s.changes, FlatMap(s.targets, WireRows(o)));
    PEPartRefuses(c, f, o);
    ChoicePartRefuses(c, f, o);
    WirePartRefuses(c, f, o);
  }
}
