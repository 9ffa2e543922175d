/**
 Uninstall undoes install: after any history of installs into one tree and under one PE
 name -- with any other options, any calls failing, run any number of times -- uninstall
 gives back the exact cluster the site had, if and only if the record meets one condition.
 */
module InstallUndone {
  import opened Text
  import opened Scheduler
  import opened Planner
  import opened InstallRecord
  import opened InstallGoal
  import opened InstallConverges
  import opened Uninstaller

  /** The tree being installed: its PE, its starter, and the queue and complex the
      installer may create. */
  datatype Mark = Mark(pe: string, starter: string, want: PE, own: string, cx: string)

  function MarkOf(prefix: string, pe: string): Mark {
    Mark(pe, StarterPath(prefix), ReferencePE(pe, prefix), DEFAULT_QUEUE, SHIM_COMPLEX)
  }

  // ---------- What every history keeps ----------

  function Recorded(st: Record, target: string, attr: Attr): Option<string> {
    OldOf(st.replaced, target, attr)
  }

  /** q is the site's queue q0 as installs may have left it. site says whether the
      PE is the site's own. */
  ghost predicate TrackedQueue(q0: Queue, q: Queue, m: Mark, st: Record, hasPE: bool, site: bool) {
    && q == q0.(peList := q.peList, starterMethod := q.starterMethod)
    && (q.peList == q0.peList || (hasPE && m.pe !in q0.peList && q.peList == q0.peList + [m.pe]))
    && (site ==> (PEListAdd(q0.name, m.pe) in st.peListAdds <==> q.peList != q0.peList))
    && (var site_ := Recorded(st, QueueKey(q0.name), StarterMethod);
        if site_.Some? then site_.value == q0.starterMethod != "" && q.starterMethod == m.starter
        else q.starterMethod == q0.starterMethod || (q0.starterMethod == "" && q.starterMethod == m.starter))
  }

  /** q is a queue install created. */
  ghost predicate FreshQueue(q: Queue, m: Mark, st: Record, hasPE: bool, site: bool) {
    && q.name == m.own && q.peListOverrides == [] && q.starterOverrides == []
    && (q.peList == [] || (hasPE && q.peList == [m.pe]))
    && (site ==> (PEListAdd(m.own, m.pe) in st.peListAdds <==> q.peList != []))
    && (q.starterMethod == "" || q.starterMethod == m.starter)
  }

  /** r holds the site's value of an attribute install may set. */
  ghost predicate SiteValue(p0: PE, r: Replaced) {
    match r.attr
    case Slots => p0.slots == LEGACY_PE_SLOTS && r.prev == LEGACY_SLOTS_TEXT
    case StartProcArgs => r.prev == p0.startProcArgs
    case ControlSlaves => r.prev == "FALSE" && !p0.controlSlaves
    case _ => false
  }

  /** p is the site's PE p0 as installs may have left it. */
  ghost predicate TrackedPE(p0: PE, p: PE, m: Mark, st: Record) {
    && p == p0.(slots := p.slots, startProcArgs := p.startProcArgs, controlSlaves := p.controlSlaves)
    && (forall r | r in st.replaced && r.target == PEKey(m.pe) :: SiteValue(p0, r))
    && p.slots == (if Recorded(st, PEKey(m.pe), Slots).Some? then PE_SLOTS_NO_CAP else p0.slots)
    && p.startProcArgs
       == (if Recorded(st, PEKey(m.pe), StartProcArgs).Some? then m.want.startProcArgs else p0.startProcArgs)
    && p.controlSlaves == (Recorded(st, PEKey(m.pe), ControlSlaves).Some? || p0.controlSlaves)
  }

  ghost predicate TrackedQueues(c0: Cluster, c: Cluster, m: Mark, st: Record) {
    var hasPE, site := m.pe in c.pes, m.pe in c0.pes;
    && c0.queues.Keys <= c.queues.Keys <= c0.queues.Keys + {m.own}
    && (forall n | n in c0.queues :: TrackedQueue(c0.queues[n], c.queues[n], m, st, hasPE, site))
    && (m.own in c.queues && m.own !in c0.queues ==>
          FreshQueue(c.queues[m.own], m, st, hasPE, site) && st.createdQueue == m.own)
    && (st.createdQueue == "" || (st.createdQueue == m.own && m.own !in c0.queues))
    && (forall x | x in st.peListAdds :: x.pe == m.pe && x.queue in c.queues)
  }

  ghost predicate TrackedPEs(c0: Cluster, c: Cluster, m: Mark, st: Record) {
    && c0.pes.Keys <= c.pes.Keys <= c0.pes.Keys + {m.pe}
    && (forall n | n in c0.pes && n != m.pe :: c.pes[n] == c0.pes[n])
    && (if m.pe in c0.pes then TrackedPE(c0.pes[m.pe], c.pes[m.pe], m, st) && st.createdPE == ""
        else
          && (forall r | r in st.replaced :: r.target != PEKey(m.pe))
          && (m.pe in c.pes ==> c.pes[m.pe] == m.want)
          && (st.createdPE == m.pe || (m.pe !in c.pes && st.createdPE == "" && st.peListAdds == [])))
  }

  ghost predicate TrackedComplexes(c0: Cluster, c: Cluster, m: Mark, st: Record) {
    && c0.complexes.Keys <= c.complexes.Keys <= c0.complexes.Keys + {m.cx}
    && (forall n | n in c0.complexes :: c.complexes[n] == c0.complexes[n])
    && (m.cx in c.complexes && m.cx !in c0.complexes ==>
          c.complexes[m.cx] == Complex(m.cx, "BOOL", "FORCED") && st.createdComplex == m.cx)
    && (st.createdComplex == "" || (st.createdComplex == m.cx && m.cx !in c0.complexes))
  }

  /** c and st are what installs of the tree may have made of the site's c0. */
  ghost predicate Tracked(c0: Cluster, c: Cluster, m: Mark, st: Record) {
    Named(c) && TrackedQueues(c0, c, m, st) && TrackedPEs(c0, c, m, st) && TrackedComplexes(c0, c, m, st)
  }

  /** The site before any install: nothing points into the tree, nothing names an
      object that does not exist, and values are as Grid Engine prints them. */
  ghost predicate Clean(c0: Cluster, m: Mark, inTree: string -> bool) {
    && Named(c0)
    && (forall n | n in c0.queues :: SiteQueue(c0.queues[n], inTree))
    && (forall n | n in c0.pes :: !inTree(c0.pes[n].startProcArgs) && c0.pes[n].startProcArgs != "")
    && (m.pe !in c0.pes ==> forall n | n in c0.queues :: !Offers(c0.queues[n], m.pe))
    && (m.cx !in c0.complexes ==> forall n | n in c0.queues :: !NamesComplex(c0.queues[n], m.cx))
  }

  ghost predicate SiteQueue(q: Queue, inTree: string -> bool) {
    && !StartsInTree(q, inTree) && FromNone(q.starterMethod) == q.starterMethod
    && (forall ov | ov in q.starterOverrides :: !OverrideInTree(ov, inTree))
  }

  ghost predicate MarkIsInTree(m: Mark, inTree: string -> bool) {
    && inTree(m.starter) && inTree(m.want.startProcArgs)
    && m.starter != "" && m.want.startProcArgs != "" && m.pe != "" && m.own != "" && m.cx != ""
    && m.want.name == m.pe && m.want.slots == PE_SLOTS_NO_CAP && m.want.controlSlaves
    && FromNone(OrNone(m.starter)) == m.starter
  }

  lemma StartIsTracked(c0: Cluster, m: Mark)
    requires Named(c0)
    ensures Tracked(c0, c0, m, EMPTY)
  {
  }

  // ---------- The rows of any install, seen from the site ----------

  /** What a row of an install's plan is, in terms of the site's cluster alone. */
  ghost predicate SiteRow(c0: Cluster, m: Mark, ch: Change) {
    match ch.kind
    case AddPE => m.pe !in c0.pes && ch.target == m.pe && ch.pe == Some(m.want)
    case SetPEAttr =>
      && ch.target == m.pe && m.pe in c0.pes
      && SiteValue(c0.pes[m.pe], Replaced(PEKey(m.pe), ch.attr, ch.prev)) && ch.prev != ""
      && (match ch.attr
          case Slots => Atoi(OrNone(ch.next)) == Some(PE_SLOTS_NO_CAP)
          case StartProcArgs => OrNone(ch.next) == m.want.startProcArgs
          case _ => EqualFold(OrNone(ch.next), "TRUE"))
    case AddToPEList =>
      ch.next == m.pe && (if ch.target in c0.queues then m.pe !in c0.queues[ch.target].peList else ch.target == m.own)
    case SetStarter =>
      && FromNone(OrNone(ch.next)) == m.starter
      && (if ch.target in c0.queues then ch.prev == c0.queues[ch.target].starterMethod
          else ch.target == m.own && ch.prev == "")
    case AddComplex => ch.target == m.cx && m.cx !in c0.complexes
    case AddQueue => ch.target == m.own && m.own !in c0.queues
    case _ => true
  }

  ghost predicate SiteRows(c0: Cluster, m: Mark, rows: seq<Change>) {
    forall ch | ch in rows :: InstallKind(ch.kind) && SiteRow(c0, m, ch)
  }

  /** The record already names what the row creates. */
  ghost predicate Intended(st: Record, ch: Change) {
    match ch.kind
    case AddPE => st.createdPE == ch.target
    case AddComplex => st.createdComplex == ch.target
    case AddQueue => st.createdQueue == ch.target
    case _ => true
  }

  // Which aims a plan from a tracked cluster has.
  ghost predicate AimAt(m: Mark, a: Aim, c: Cluster, force: bool) {
    && a.pe == m.pe && a.starter == m.starter
    && a.goalPE == (if m.pe in c.pes then Repaired(c.pes[m.pe], m.want, force) else m.want)
    && (forall n | n in c.queues :: n in a.base && a.base[n] == c.queues[n])
    && (a.creates ==> m.own !in c.queues && m.own in a.base && a.base.Keys == c.queues.Keys + {m.own}
                      && a.base[m.own].starterMethod == "")
    && (!a.creates ==> a.base == c.queues)
  }

  lemma AimIsAt(c: Cluster, o: Options, m: Mark)
    requires m == MarkOf(o.prefix, PEName(o))
    ensures AimAt(m, AimOf(c, o), c, o.force)
  {
  }

  lemma AttrRowIsSite(c0: Cluster, c: Cluster, m: Mark, st: Record, a: Aim, force: bool, ch: Change)
    requires m.want.slots == PE_SLOTS_NO_CAP && m.want.controlSlaves && m.want.name == m.pe
    requires TrackedPEs(c0, c, m, st) && AimAt(m, a, c, force) && Planned(c, a, ch) && ch.kind == SetPEAttr
    requires forall n | n in c0.pes :: c0.pes[n].startProcArgs != ""
    ensures SiteRow(c0, m, ch)
  {
    var have, goal := c.pes[m.pe], a.goalPE;
    if m.pe in c0.pes {
      match ch.attr
      case Slots =>
        assert have.(slots := goal.slots).slots == goal.slots == PE_SLOTS_NO_CAP;
      case StartProcArgs =>
        assert have.(startProcArgs := goal.startProcArgs).startProcArgs == goal.startProcArgs;
      case ControlSlaves =>
        assert have.(controlSlaves := goal.controlSlaves).controlSlaves == goal.controlSlaves;
    }
  }

  lemma WireRowIsSite(c0: Cluster, c: Cluster, m: Mark, st: Record, a: Aim, force: bool, ch: Change)
    requires TrackedQueues(c0, c, m, st) && AimAt(m, a, c, force) && Planned(c, a, ch)
    requires ch.kind == AddToPEList || ch.kind == SetStarter
    ensures SiteRow(c0, m, ch)
  {
    if ch.target in c0.queues {
      assert TrackedQueue(c0.queues[ch.target], c.queues[ch.target], m, st, m.pe in c.pes, m.pe in c0.pes);
    }
  }

  lemma RowsAreSite(c0: Cluster, c: Cluster, m: Mark, st: Record, a: Aim, force: bool, rows: seq<Change>)
    requires m.want.slots == PE_SLOTS_NO_CAP && m.want.controlSlaves && m.want.name == m.pe
    requires m.own == DEFAULT_QUEUE && m.cx == SHIM_COMPLEX
    requires Tracked(c0, c, m, st) && AimAt(m, a, c, force) && AllPlanned(c, a, rows)
    requires forall n | n in c0.pes :: c0.pes[n].startProcArgs != ""
    ensures SiteRows(c0, m, rows)
  {
    forall ch | ch in rows
      ensures SiteRow(c0, m, ch)
    {
      assert Planned(c, a, ch);
      if ch.kind == SetPEAttr {
        AttrRowIsSite(c0, c, m, st, a, force, ch);
      } else if ch.kind == AddToPEList || ch.kind == SetStarter {
        WireRowIsSite(c0, c, m, st, a, force, ch);
      }
    }
  }

  /** With a PE of its own, a row that replaces no starter records nothing uninstall needs. */
  ghost predicate Forgettable(c0: Cluster, m: Mark, ch: Change) {
    m.pe !in c0.pes && (ch.kind == SetStarter ==> ch.prev == "")
  }

  /** No queue of the site that --queue names has a starter of its own. */
  predicate NoStarters(c0: Cluster, queues: seq<string>) {
    forall n | n in c0.queues && (queues == [ALL_QUEUES] || n in queues) :: c0.queues[n].starterMethod == ""
  }

  /** The queues wired besides those --queue names have no starter to replace. */
  lemma StarterIsNoneOrNamed(c0: Cluster, c: Cluster, m: Mark, st: Record, o: Options, ch: Change)
    requires TrackedQueues(c0, c, m, st) && m == MarkOf(o.prefix, PEName(o)) && o.createdQueue == st.createdQueue
    requires Planned(c, AimOf(c, o), ch) && ch.kind == SetStarter && SiteRow(c0, m, ch) && NoStarters(c0, o.queues)
    ensures ch.prev == ""
  {
  }

  lemma RunIsForgettable(c0: Cluster, c: Cluster, m: Mark, st: Record, o: Options, rows: seq<Change>)
    requires TrackedQueues(c0, c, m, st) && m == MarkOf(o.prefix, PEName(o)) && o.createdQueue == st.createdQueue
    requires m.pe !in c0.pes && (!o.force || NoStarters(c0, o.queues))
    requires AllPlanned(c, AimOf(c, o), rows) && SiteRows(c0, m, rows)
    ensures forall ch | ch in rows :: Forgettable(c0, m, ch)
  {
    forall ch | ch in rows
      ensures Forgettable(c0, m, ch)
    {
      assert Planned(c, AimOf(c, o), ch);
      if ch.kind == SetStarter && o.force {
        StarterIsNoneOrNamed(c0, c, m, st, o, ch);
      }
    }
  }

  // ---------- One row, applied and recorded ----------

  function Noted(st: Record, ch: Change, ok: bool, recorded: bool): Record {
    if recorded then RecordOne(st, Outcome(ch, ok)) else st
  }

  lemma {:induction false} ReplacedSnoc(rs: seq<Replaced>, r: Replaced, target: string, attr: Attr)
    ensures OldOf(rs + [r], target, attr)
         == if OldOf(rs, target, attr).Some? then OldOf(rs, target, attr)
            else if r.target == target && r.attr == attr then Some(r.prev) else None
  {
    if rs == [] {
      assert rs + [r] == [r];
      assert OldOf([r][1..], target, attr) == None;
    } else {
      assert (rs + [r])[1..] == rs[1..] + [r];
      ReplacedSnoc(rs[1..], r, target, attr);
    }
  }

  /** Replace keeps every recorded value and adds at most its own. */
  lemma ReplaceEffect(st: Record, target: string, attr: Attr, prev: string, t: string, at: Attr)
    ensures Recorded(Replace(st, target, attr, prev), t, at)
         == if Recorded(st, t, at).Some? then Recorded(st, t, at)
            else if t == target && at == attr then Some(prev) else None
    ensures forall r | r in Replace(st, target, attr, prev).replaced ::
      r in st.replaced || r == Replaced(target, attr, prev)
    ensures forall r | r in st.replaced :: r in Replace(st, target, attr, prev).replaced
    ensures Replace(st, target, attr, prev) == st.(replaced := Replace(st, target, attr, prev).replaced)
  {
    ReplacedSnoc(st.replaced, Replaced(target, attr, prev), t, at);
  }

  lemma OfferNoted(st: Record, ch: Change, recorded: bool)
    requires ch.kind == AddToPEList
    ensures var st2 := Noted(st, ch, true, recorded);
      && st2 == st.(peListAdds := st2.peListAdds)
      && (forall x | x in st.peListAdds :: x in st2.peListAdds)
      && (forall x | x in st2.peListAdds :: x in st.peListAdds || x == PEListAdd(ch.target, ch.next))
      && (recorded ==> PEListAdd(ch.target, ch.next) in st2.peListAdds)
  {
  }

  lemma OfferQueue(q0: Queue, q: Queue, m: Mark, st: Record, st2: Record, hit: bool, site: bool, recorded: bool)
    requires TrackedQueue(q0, q, m, st, true, site)
    requires hit ==> m.pe !in q0.peList
    requires recorded || !site
    requires st2 == st.(peListAdds := st2.peListAdds)
    requires PEListAdd(q0.name, m.pe) in st.peListAdds ==> PEListAdd(q0.name, m.pe) in st2.peListAdds
    requires PEListAdd(q0.name, m.pe) in st2.peListAdds ==> PEListAdd(q0.name, m.pe) in st.peListAdds || hit
    requires hit && recorded ==> PEListAdd(q0.name, m.pe) in st2.peListAdds
    ensures TrackedQueue(q0, if hit then q.(peList := Including(q.peList, m.pe)) else q, m, st2, true, site)
  {
  }

  lemma OfferStep(c0: Cluster, c: Cluster, m: Mark, st: Record, ch: Change, recorded: bool)
    requires Tracked(c0, c, m, st) && Named(c0)
    requires ch.kind == AddToPEList && SiteRow(c0, m, ch) && Perform(c, ch).Some?
    requires recorded || Forgettable(c0, m, ch)
    ensures TrackedQueues(c0, Perform(c, ch).value, m, Noted(st, ch, true, recorded))
  {
    var d, st2 := Perform(c, ch).value, Noted(st, ch, true, recorded);
    OfferNoted(st, ch, recorded);
    forall n | n in c0.queues
      ensures TrackedQueue(c0.queues[n], d.queues[n], m, st2, m.pe in d.pes, m.pe in c0.pes)
    {
      assert TrackedQueue(c0.queues[n], c.queues[n], m, st, m.pe in c.pes, m.pe in c0.pes);
      OfferTo(c, ch, n);
      OfferQueue(c0.queues[n], c.queues[n], m, st, st2, n == ch.target, m.pe in c0.pes, recorded);
    }
    OfferTo(c, ch, ch.target);
    if m.own in c.queues && m.own !in c0.queues {
      OfferTo(c, ch, m.own);
      OfferFresh(c.queues[m.own], m, st, st2, m.own == ch.target, m.pe in c0.pes, recorded);
    }
  }

  lemma OfferFresh(q: Queue, m: Mark, st: Record, st2: Record, hit: bool, site: bool, recorded: bool)
    requires FreshQueue(q, m, st, true, site)
    requires recorded || !site
    requires st2 == st.(peListAdds := st2.peListAdds)
    requires PEListAdd(m.own, m.pe) in st.peListAdds ==> PEListAdd(m.own, m.pe) in st2.peListAdds
    requires PEListAdd(m.own, m.pe) in st2.peListAdds ==> PEListAdd(m.own, m.pe) in st.peListAdds || hit
    requires hit && recorded ==> PEListAdd(m.own, m.pe) in st2.peListAdds
    ensures FreshQueue(if hit then q.(peList := Including(q.peList, m.pe)) else q, m, st2, true, site)
  {
  }

  lemma OfferTo(c: Cluster, ch: Change, n: string)
    requires ch.kind == AddToPEList && Perform(c, ch).Some? && n in c.queues
    ensures var d := Perform(c, ch).value;
      && d.pes == c.pes && ch.next in c.pes && d.queues.Keys == c.queues.Keys
      && d.queues[n] == if n == ch.target then c.queues[n].(peList := Including(c.queues[n].peList, ch.next))
        else c.queues[n]
  {
  }

  lemma OfferStepPEs(c0: Cluster, c: Cluster, m: Mark, st: Record, ch: Change, recorded: bool)
    requires TrackedPEs(c0, c, m, st)
    requires ch.kind == AddToPEList && SiteRow(c0, m, ch) && Perform(c, ch).Some?
    ensures TrackedPEs(c0, Perform(c, ch).value, m, Noted(st, ch, true, recorded))
  {
    OfferNoted(st, ch, recorded);
  }

  lemma StarterTo(c: Cluster, ch: Change, starter: string, n: string)
    requires ch.kind == SetStarter && Perform(c, ch).Some? && n in c.queues && FromNone(OrNone(ch.next)) == starter
    ensures var d := Perform(c, ch).value;
      && d.pes == c.pes && d.queues.Keys == c.queues.Keys
      && d.queues[n] == if n == ch.target then c.queues[n].(starterMethod := starter) else c.queues[n]
  {
  }

  lemma StarterNoted(st: Record, ch: Change, recorded: bool, n: string)
    requires ch.kind == SetStarter
    ensures var st2 := Noted(st, ch, true, recorded);
      && st2 == st.(replaced := st2.replaced)
      && Recorded(st2, QueueKey(n), StarterMethod)
         == if Recorded(st, QueueKey(n), StarterMethod).None? && recorded && n == ch.target && ch.prev != ""
            then Some(ch.prev) else Recorded(st, QueueKey(n), StarterMethod)
  {
    KeysDiffer(n, ch.target);
    ReplaceEffect(st, QueueKey(ch.target), StarterMethod, ch.prev, QueueKey(n), StarterMethod);
  }

  lemma StarterQueue(q0: Queue, q: Queue, m: Mark, st: Record, st2: Record, hit: bool, prev: string, hasPE: bool,
                     site: bool, recorded: bool)
    requires TrackedQueue(q0, q, m, st, hasPE, site) && st2 == st.(replaced := st2.replaced)
    requires hit ==> prev == q0.starterMethod && (recorded || prev == "")
    requires Recorded(st2, QueueKey(q0.name), StarterMethod)
          == if Recorded(st, QueueKey(q0.name), StarterMethod).None? && recorded && hit && prev != ""
             then Some(prev) else Recorded(st, QueueKey(q0.name), StarterMethod)
    ensures TrackedQueue(q0, if hit then q.(starterMethod := m.starter) else q, m, st2, hasPE, site)
  {
  }

  lemma StarterStep(c0: Cluster, c: Cluster, m: Mark, st: Record, ch: Change, recorded: bool)
    requires Tracked(c0, c, m, st) && Named(c0)
    requires ch.kind == SetStarter && SiteRow(c0, m, ch) && Perform(c, ch).Some?
    requires recorded || Forgettable(c0, m, ch)
    ensures TrackedQueues(c0, Perform(c, ch).value, m, Noted(st, ch, true, recorded))
  {
    var d, st2 := Perform(c, ch).value, Noted(st, ch, true, recorded);
    forall n | n in c0.queues
      ensures TrackedQueue(c0.queues[n], d.queues[n], m, st2, m.pe in d.pes, m.pe in c0.pes)
    {
      assert TrackedQueue(c0.queues[n], c.queues[n], m, st, m.pe in c.pes, m.pe in c0.pes);
      StarterTo(c, ch, m.starter, n);
      StarterNoted(st, ch, recorded, n);
      StarterQueue(c0.queues[n], c.queues[n], m, st, st2, n == ch.target, ch.prev, m.pe in c.pes, m.pe in c0.pes,
                   recorded);
    }
    StarterNoted(st, ch, recorded, "");
    StarterTo(c, ch, m.starter, ch.target);
    if m.own in c.queues {
      StarterTo(c, ch, m.starter, m.own);
    }
  }

  lemma StarterStepPEs(c0: Cluster, c: Cluster, m: Mark, st: Record, ch: Change, recorded: bool)
    requires TrackedPEs(c0, c, m, st) && ch.kind == SetStarter && Perform(c, ch).Some?
    ensures TrackedPEs(c0, Perform(c, ch).value, m, Noted(st, ch, true, recorded))
  {
    KeysDiffer(ch.target, m.pe);
    ReplaceEffect(st, QueueKey(ch.target), StarterMethod, ch.prev, PEKey(m.pe), Slots);
    ReplaceEffect(st, QueueKey(ch.target), StarterMethod, ch.prev, PEKey(m.pe), StartProcArgs);
    ReplaceEffect(st, QueueKey(ch.target), StarterMethod, ch.prev, PEKey(m.pe), ControlSlaves);
  }

  lemma AttrStepPEs(c0: Cluster, c: Cluster, m: Mark, st: Record, ch: Change)
    requires TrackedPEs(c0, c, m, st) && ch.kind == SetPEAttr && SiteRow(c0, m, ch) && Perform(c, ch).Some?
    ensures TrackedPEs(c0, Perform(c, ch).value, m, Noted(st, ch, true, true))
  {
    ReplaceEffect(st, PEKey(m.pe), ch.attr, ch.prev, PEKey(m.pe), Slots);
    ReplaceEffect(st, PEKey(m.pe), ch.attr, ch.prev, PEKey(m.pe), StartProcArgs);
    ReplaceEffect(st, PEKey(m.pe), ch.attr, ch.prev, PEKey(m.pe), ControlSlaves);
  }

  lemma AttrStepQueues(c0: Cluster, c: Cluster, m: Mark, st: Record, ch: Change)
    requires Named(c0) && TrackedQueues(c0, c, m, st) && ch.kind == SetPEAttr && ch.target == m.pe
      && Perform(c, ch).Some?
    ensures TrackedQueues(c0, Perform(c, ch).value, m, Noted(st, ch, true, true))
  {
    var d, st2 := Perform(c, ch).value, Noted(st, ch, true, true);
    forall n | n in c0.queues
      ensures TrackedQueue(c0.queues[n], d.queues[n], m, st2, m.pe in d.pes, m.pe in c0.pes)
    {
      assert TrackedQueue(c0.queues[n], c.queues[n], m, st, m.pe in c.pes, m.pe in c0.pes);
      KeysDiffer(n, m.pe);
      ReplaceEffect(st, PEKey(m.pe), ch.attr, ch.prev, QueueKey(n), StarterMethod);
    }
  }

  lemma CreateStep(c0: Cluster, c: Cluster, m: Mark, st: Record, ch: Change, recorded: bool)
    requires Named(c0) && m.own != "" && m.pe != "" && m.cx != "" && m.want.name == m.pe
    requires Tracked(c0, c, m, st) && SiteRow(c0, m, ch) && Intended(st, ch) && Perform(c, ch).Some?
    requires ch.kind == AddPE || ch.kind == AddQueue || ch.kind == AddComplex
    ensures Tracked(c0, Perform(c, ch).value, m, Noted(st, ch, true, recorded))
  {
    assert Noted(st, ch, true, recorded) == st;
    CreateQueues(c0, c, m, st, ch);
    CreateOthers(c0, c, m, st, ch);
  }

  lemma CreateOthers(c0: Cluster, c: Cluster, m: Mark, st: Record, ch: Change)
    requires Named(c0) && m.own != "" && m.pe != "" && m.cx != "" && m.want.name == m.pe
    requires Tracked(c0, c, m, st) && SiteRow(c0, m, ch) && Intended(st, ch) && Perform(c, ch).Some?
    requires ch.kind == AddPE || ch.kind == AddQueue || ch.kind == AddComplex
    ensures var d := Perform(c, ch).value; Named(d) && TrackedPEs(c0, d, m, st) && TrackedComplexes(c0, d, m, st)
  {
    CreateKeepsNamed(c, m, ch);
    if ch.kind == AddPE {
      CreatePE(c0, c, m, st, ch);
    } else if ch.kind == AddComplex {
      CreateComplex(c0, c, m, st, ch);
    }
  }

  lemma CreateKeepsNamed(c: Cluster, m: Mark, ch: Change)
    requires Named(c) && m.own != "" && m.pe != "" && m.want.name == m.pe && Perform(c, ch).Some?
    requires ch.kind == AddPE || ch.kind == AddQueue || ch.kind == AddComplex
    requires (ch.kind == AddPE ==> ch.pe == Some(m.want)) && (ch.kind == AddQueue ==> ch.target == m.own)
    ensures Named(Perform(c, ch).value)
    ensures var d := Perform(c, ch).value;
      && (ch.kind != AddPE ==> d.pes == c.pes)
      && (ch.kind != AddComplex ==> d.complexes == c.complexes)
  {
  }

  lemma CreatePE(c0: Cluster, c: Cluster, m: Mark, st: Record, ch: Change)
    requires m.pe != "" && m.want.name == m.pe
    requires TrackedPEs(c0, c, m, st) && ch.kind == AddPE && SiteRow(c0, m, ch) && Intended(st, ch)
    requires Perform(c, ch).Some?
    ensures var d := Perform(c, ch).value; TrackedPEs(c0, d, m, st) && d.complexes == c.complexes
  {
    assert Perform(c, ch).value.pes == c.pes[m.pe := m.want];
  }

  lemma CreateComplex(c0: Cluster, c: Cluster, m: Mark, st: Record, ch: Change)
    requires TrackedComplexes(c0, c, m, st) && ch.kind == AddComplex && SiteRow(c0, m, ch) && Intended(st, ch)
    requires Perform(c, ch).Some?
    ensures var d := Perform(c, ch).value; TrackedComplexes(c0, d, m, st) && d.pes == c.pes
  {
    assert Perform(c, ch).value.complexes == c.complexes[m.cx := Complex(m.cx, "BOOL", "FORCED")];
  }

  lemma CreateQueues(c0: Cluster, c: Cluster, m: Mark, st: Record, ch: Change)
    requires Named(c0) && m.own != "" && m.pe != "" && m.cx != "" && m.want.name == m.pe
    requires Tracked(c0, c, m, st) && SiteRow(c0, m, ch) && Intended(st, ch) && Perform(c, ch).Some?
    requires ch.kind == AddPE || ch.kind == AddQueue || ch.kind == AddComplex
    ensures TrackedQueues(c0, Perform(c, ch).value, m, st)
  {
    var d := Perform(c, ch).value;
    forall n | n in c0.queues
      ensures TrackedQueue(c0.queues[n], d.queues[n], m, st, m.pe in d.pes, m.pe in c0.pes)
    {
      CreateKeepsQueue(c, ch, n, m.pe);
      MorePEs(c0.queues[n], c.queues[n], m, st, m.pe in c.pes, m.pe in d.pes, m.pe in c0.pes);
    }
  }

  lemma MorePEs(q0: Queue, q: Queue, m: Mark, st: Record, had: bool, has: bool, site: bool)
    requires TrackedQueue(q0, q, m, st, had, site) && (had ==> has)
    ensures TrackedQueue(q0, q, m, st, has, site)
  {
  }

  lemma CreateKeepsQueue(c: Cluster, ch: Change, n: string, pe: string)
    requires n in c.queues && Perform(c, ch).Some?
    requires ch.kind == AddPE || ch.kind == AddQueue || ch.kind == AddComplex
    ensures var d := Perform(c, ch).value;
      n in d.queues && d.queues[n] == c.queues[n] && (pe in c.pes ==> pe in d.pes)
  {
  }

  lemma WireKeepsRest(c0: Cluster, c: Cluster, m: Mark, st: Record, ch: Change, recorded: bool)
    requires Named(c) && TrackedComplexes(c0, c, m, st) && Perform(c, ch).Some?
    requires ch.kind == AddToPEList || ch.kind == SetStarter
    ensures Named(Perform(c, ch).value)
    ensures TrackedComplexes(c0, Perform(c, ch).value, m, Noted(st, ch, true, recorded))
  {
    if ch.kind == AddToPEList {
      OfferNoted(st, ch, recorded);
    } else {
      ReplaceEffect(st, QueueKey(ch.target), StarterMethod, ch.prev, "", NoAttr);
    }
  }

  lemma AttrStaysTracked(c0: Cluster, c: Cluster, m: Mark, st: Record, ch: Change)
    requires Named(c0) && m.want.name == m.pe
    requires Tracked(c0, c, m, st) && SiteRow(c0, m, ch) && Perform(c, ch).Some?
    requires ch.kind == SetPEAttr
    ensures Tracked(c0, Perform(c, ch).value, m, Noted(st, ch, true, true))
  {
    AttrStepPEs(c0, c, m, st, ch);
    AttrStepQueues(c0, c, m, st, ch);
  }

  lemma RowStaysTracked(c0: Cluster, c: Cluster, m: Mark, st: Record, ch: Change, fail: bool, recorded: bool,
                        inTree: string -> bool)
    requires Named(c0) && MarkIsInTree(m, inTree)
    requires Tracked(c0, c, m, st) && SiteRow(c0, m, ch) && InstallKind(ch.kind) && Intended(st, ch)
    requires recorded || Forgettable(c0, m, ch)
    ensures Tracked(c0, Next(c, ch, fail), m, Noted(st, ch, Succeeds(c, ch, fail), recorded))
  {
    if !Succeeds(c, ch, fail) || !Mutating(ch.kind) {
      assert Noted(st, ch, Succeeds(c, ch, fail), recorded) == st;
    } else if ch.kind == SetPEAttr {
      AttrStaysTracked(c0, c, m, st, ch);
    } else if ch.kind == AddToPEList || ch.kind == SetStarter {
      WireKeepsRest(c0, c, m, st, ch, recorded);
      if ch.kind == AddToPEList {
        OfferStep(c0, c, m, st, ch, recorded);
        OfferStepPEs(c0, c, m, st, ch, recorded);
      } else {
        StarterStep(c0, c, m, st, ch, recorded);
        StarterStepPEs(c0, c, m, st, ch, recorded);
      }
    } else {
      CreateStep(c0, c, m, st, ch, recorded);
    }
  }

  lemma IntendedStays(st: Record, ch: Change, ok: bool, recorded: bool, x: Change, c0: Cluster, m: Mark)
    requires SiteRow(c0, m, ch) && SiteRow(c0, m, x) && Intended(st, x)
    ensures Intended(Noted(st, ch, ok, recorded), x)
  {
  }

  lemma RestIntended(c0: Cluster, m: Mark, st: Record, rows: seq<Change>, ok: bool, recorded: bool)
    requires rows != [] && SiteRows(c0, m, rows)
    requires forall ch | ch in rows :: Intended(st, ch) && (recorded || Forgettable(c0, m, ch))
    ensures SiteRows(c0, m, rows[1..])
    ensures forall x | x in rows[1..] ::
      Intended(Noted(st, rows[0], ok, recorded), x) && (recorded || Forgettable(c0, m, x))
  {
    assert rows[0] in rows;
    forall x | x in rows[1..]
      ensures x in rows && Intended(Noted(st, rows[0], ok, recorded), x)
    {
      assert x in rows;
      IntendedStays(st, rows[0], ok, recorded, x, c0, m);
    }
  }

  function NotedAll(st: Record, outs: seq<Outcome>, recorded: bool): Record {
    if recorded then RecordAll(st, outs) else st
  }

  lemma NotedAllStep(c: Cluster, st: Record, rows: seq<Change>, fails: seq<bool>, recorded: bool)
    requires rows != []
    ensures var ok := Succeeds(c, rows[0], Head(fails));
      NotedAll(st, Outcomes(c, rows, fails), recorded)
      == NotedAll(Noted(st, rows[0], ok, recorded),
                  Outcomes(Next(c, rows[0], Head(fails)), rows[1..], Tail(fails)), recorded)
  {
    var rest := Outcomes(Next(c, rows[0], Head(fails)), rows[1..], Tail(fails));
    var first := Outcome(rows[0], Succeeds(c, rows[0], Head(fails)));
    assert ([first] + rest)[1..] == rest;
  }

  lemma {:induction false} RunStaysTracked(c0: Cluster, c: Cluster, m: Mark, st: Record, rows: seq<Change>,
                                           fails: seq<bool>, recorded: bool, inTree: string -> bool)
    requires Named(c0) && MarkIsInTree(m, inTree)
    requires Tracked(c0, c, m, st) && SiteRows(c0, m, rows)
    requires forall ch | ch in rows :: Intended(st, ch) && (recorded || Forgettable(c0, m, ch))
    ensures Tracked(c0, After(c, rows, fails), m, NotedAll(st, Outcomes(c, rows, fails), recorded))
    decreases |rows|
  {
    if rows != [] {
      var ch := rows[0];
      assert ch in rows;
      var ok := Succeeds(c, ch, Head(fails));
      var st2 := Noted(st, ch, ok, recorded);
      RowStaysTracked(c0, c, m, st, ch, Head(fails), recorded, inTree);
      RestIntended(c0, m, st, rows, ok, recorded);
      RunStaysTracked(c0, Next(c, ch, Head(fails)), m, st2, rows[1..], Tail(fails), recorded, inTree);
      NotedAllStep(c, st, rows, fails, recorded);
    }
  }

  lemma IntendStaysTracked(c0: Cluster, c: Cluster, m: Mark, st: Record, ch: Change)
    requires Tracked(c0, c, m, st) && SiteRow(c0, m, ch)
    ensures Tracked(c0, c, m, IntendOne(st, ch)) && Intended(IntendOne(st, ch), ch)
  {
    var st2 := IntendOne(st, ch);
    forall n | n in c0.queues
      ensures TrackedQueue(c0.queues[n], c.queues[n], m, st2, m.pe in c.pes, m.pe in c0.pes)
    {
      assert TrackedQueue(c0.queues[n], c.queues[n], m, st, m.pe in c.pes, m.pe in c0.pes);
    }
  }

  lemma {:induction false} IntendingStaysTracked(c0: Cluster, c: Cluster, m: Mark, st: Record, rows: seq<Change>)
    requires Tracked(c0, c, m, st) && SiteRows(c0, m, rows)
    ensures Tracked(c0, c, m, Intend(st, rows))
    ensures forall ch | ch in rows || (SiteRow(c0, m, ch) && Intended(st, ch)) :: Intended(Intend(st, rows), ch)
    decreases |rows|
  {
    if rows != [] {
      var st2 := IntendOne(st, rows[0]);
      assert rows[0] in rows;
      IntendStaysTracked(c0, c, m, st, rows[0]);
      IntendingStaysTracked(c0, c, m, st2, rows[1..]);
      assert forall ch :: ch in rows <==> ch == rows[0] || ch in rows[1..];
      forall ch | SiteRow(c0, m, ch) && Intended(st, ch)
        ensures Intended(st2, ch)
      {
      }
    }
  }

  // ---------- Every history ----------

  /** An install run: its options, its failures, and whether its report was recorded. */
  datatype Visit = Visit(queues: seq<string>, force: bool, round: Round)

  function VisitOptions(prefix: string, pe: string, v: Visit): Options {
    Options(prefix, pe, v.queues, "", v.force)
  }

  function VisitOnce(s: Site, prefix: string, pe: string, discover: Cluster -> Facts, v: Visit): Site {
    RunOnce(s, VisitOptions(prefix, pe, v), discover, v.round)
  }

  /** The site after a history of installs into one tree. */
  function History(s: Site, prefix: string, pe: string, discover: Cluster -> Facts, visits: seq<Visit>): Site
    decreases |visits|
  {
    if visits == [] then s
    else History(VisitOnce(s, prefix, pe, discover, visits[0]), prefix, pe, discover, visits[1..])
  }

  /** A run that stopped before recording is only undone if it replaced nothing of the site's:
      the PE is install's own, and --force met no starter of the site's. */
  ghost predicate Allowed(c0: Cluster, pe: string, v: Visit) {
    v.round.recorded || (pe !in c0.pes && (!v.force || NoStarters(c0, v.queues)))
  }

  lemma VisitStaysTracked(c0: Cluster, s: Site, prefix: string, pe: string, discover: Cluster -> Facts, v: Visit,
                          inTree: string -> bool)
    requires pe != "" && MarkIsInTree(MarkOf(prefix, pe), inTree) && Clean(c0, MarkOf(prefix, pe), inTree)
    requires Tracked(c0, s.cluster, MarkOf(prefix, pe), s.record)
    requires Lists(discover(s.cluster), s.cluster)
    requires Allowed(c0, pe, v)
    ensures var s2 := VisitOnce(s, prefix, pe, discover, v);
      Tracked(c0, s2.cluster, MarkOf(prefix, pe), s2.record)
  {
    var m := MarkOf(prefix, pe);
    var o := Rerun(VisitOptions(prefix, pe, v), s.record);
    var plan := InstallPlan(discover(s.cluster), o);
    var a := AimOf(s.cluster, o);
    PlanIsPlanned(discover(s.cluster), s.cluster, o);
    AimIsAt(s.cluster, o, m);
    RowsAreSite(c0, s.cluster, m, s.record, a, v.force, plan);
    if !v.round.recorded {
      RunIsForgettable(c0, s.cluster, m, s.record, o, plan);
    }
    IntendingStaysTracked(c0, s.cluster, m, s.record, plan);
    RunStaysTracked(c0, s.cluster, m, Intend(s.record, plan), plan, v.round.fails, v.round.recorded, inTree);
  }

  lemma {:induction false} HistoryIsTracked(c0: Cluster, s: Site, prefix: string, pe: string,
                                            discover: Cluster -> Facts, visits: seq<Visit>, inTree: string -> bool)
    requires pe != "" && MarkIsInTree(MarkOf(prefix, pe), inTree) && Clean(c0, MarkOf(prefix, pe), inTree)
    requires forall c | Named(c) :: Lists(discover(c), c)
    requires Tracked(c0, s.cluster, MarkOf(prefix, pe), s.record)
    requires forall v | v in visits :: Allowed(c0, pe, v)
    ensures var e := History(s, prefix, pe, discover, visits);
      Tracked(c0, e.cluster, MarkOf(prefix, pe), e.record)
    decreases |visits|
  {
    if visits != [] {
      assert visits[0] in visits;
      VisitStaysTracked(c0, s, prefix, pe, discover, visits[0], inTree);
      HistoryIsTracked(c0, VisitOnce(s, prefix, pe, discover, visits[0]), prefix, pe, discover, visits[1..], inTree);
    }
  }
}
