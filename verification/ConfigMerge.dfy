/**
 Merging the installer's configuration into the file a site has: the installer owns
 the keys it knows, everything else survives, at every depth, with its comments.
 */
module ConfigMerge {
  import opened Text

  datatype Comments = Comments(head: string, line: string, foot: string)

  /** A YAML value: a scalar or a sequence, which a merge never looks into, or a mapping. */
  datatype Node =
    | Leaf(text: string, note: Comments)
    | Mapping(tag: string, style: int, note: Comments, entries: seq<Entry>)

  datatype Entry = Entry(key: string, keyNote: Comments, val: Node)

  /** The keys the shim wrote once and has since removed. */
  const RETIRED: set<string> := {"launch_ramp", "control_port", "standalone"}

  // ---------- Looking up ----------

  /** The entry of a key; with repeated keys the last one. */
  function Find(entries: seq<Entry>, key: string): (r: Option<Entry>)
    ensures r.Some? ==> r.value in entries && r.value.key == key
    ensures r.None? <==> forall i | 0 <= i < |entries| :: entries[i].key != key
  {
    if entries == [] then None
    else
      var n := |entries| - 1;
      if entries[n].key == key then Some(entries[n]) else Find(entries[..n], key)
  }

  predicate Has(entries: seq<Entry>, key: string) {
    Find(entries, key).Some?
  }

  // ---------- Comments ----------

  function Over(mine: string, was: string): string {
    if mine == "" then was else mine
  }

  function CarriedNote(mine: Comments, was: Comments): Comments {
    Comments(Over(mine.head, was.head), Over(mine.line, was.line), Over(mine.foot, was.foot))
  }

  /** The new value with the comments of the old one where it has none. */
  function WithComments(src: Node, was: Node): Node {
    src.(note := CarriedNote(src.note, was.note))
  }

  // ---------- The merge ----------

  /** What becomes of an entry of the existing file; drop are the keys not to keep. */
  function MergedEntry(e: Entry, src: seq<Entry>, drop: set<string>): seq<Entry>
    decreases e.val, if e.val.Mapping? then |e.val.entries| + 2 else 0
  {
    var s := Find(src, e.key);
    if s.None? then (if e.key in drop then [] else [e])
    else if e.val.Mapping? && s.value.val.Mapping? then [e.(val := Merged(e.val, s.value.val, {}))]
    else [e.(val := WithComments(s.value.val, e.val))]
  }

  /** The first n entries of the existing file, merged. */
  function MergedOld(dst: Node, src: seq<Entry>, drop: set<string>, n: nat): seq<Entry>
    requires dst.Mapping? && n <= |dst.entries|
    decreases dst, n
  {
    if n == 0 then [] else MergedOld(dst, src, drop, n - 1) + MergedEntry(dst.entries[n - 1], src, drop)
  }

  /** Those of the first n entries of src whose keys the existing file lacks. */
  function Added(dst: seq<Entry>, src: seq<Entry>, n: nat): seq<Entry>
    requires n <= |src|
  {
    if n == 0 then []
    else
      Added(dst, src, n - 1) + NewEntry(dst, src, src[n - 1].key)
  }

  function NewEntry(dst: seq<Entry>, src: seq<Entry>, key: string): (r: seq<Entry>)
    requires Has(src, key) || exists i :: 0 <= i < |src| && src[i].key == key
    ensures |r| <= 1 && (r != [] ==> r[0].key == key)
  {
    if Has(dst, key) then [] else [Find(src, key).value]
  }

  function Merged(dst: Node, src: Node, drop: set<string>): (m: Node)
    requires dst.Mapping? && src.Mapping?
    ensures m.Mapping?
    decreases dst, |dst.entries| + 1
  {
    dst.(entries := MergedOld(dst, src.entries, drop, |dst.entries|) + Added(dst.entries, src.entries, |src.entries|))
  }

  method MergeMapping(dst: Node, src: Node, top: bool) returns (out: Node)
    requires dst.Mapping? && src.Mapping?
    ensures out == Merged(dst, src, if top then RETIRED else {})
    decreases dst
  {
    var drop := if top then RETIRED else {};
    var entries: seq<Entry> := [];
    for i := 0 to |dst.entries|
      invariant entries == MergedOld(dst, src.entries, drop, i)
    {
      var e := dst.entries[i];
      var s := Find(src.entries, e.key);
      if s.None? {
        if e.key !in drop {
          entries := entries + [e];
        }
      } else if e.val.Mapping? && s.value.val.Mapping? {
        var inner := MergeMapping(e.val, s.value.val, false);
        entries := entries + [e.(val := inner)];
      } else {
        entries := entries + [e.(val := WithComments(s.value.val, e.val))];
      }
    }
    var added := AddMissing(dst.entries, src.entries);
    out := dst.(entries := entries + added);
  }

  method AddMissing(dst: seq<Entry>, src: seq<Entry>) returns (added: seq<Entry>)
    ensures added == Added(dst, src, |src|)
  {
    added := [];
    for i := 0 to |src|
      invariant added == Added(dst, src, i)
    {
      if !Has(dst, src[i].key) {
        added := added + [Find(src, src[i].key).value];
      }
    }
  }

  // ---------- Keys and their order ----------

  function Keys(entries: seq<Entry>): (k: seq<string>)
    ensures |k| == |entries|
  {
    seq(|entries|, i requires 0 <= i < |entries| => entries[i].key)
  }

  predicate DistinctKeys(entries: seq<Entry>) {
    forall i, j | 0 <= i < j < |entries| :: entries[i].key != entries[j].key
  }

  /** No mapping repeats a key, at any depth. */
  predicate WellFormed(n: Node)
    decreases n
  {
    n.Mapping? ==> DistinctKeys(n.entries) && forall i | 0 <= i < |n.entries| :: WellFormed(n.entries[i].val)
  }

  lemma {:induction false} FindIs(entries: seq<Entry>, i: nat)
    requires i < |entries| && DistinctKeys(entries)
    ensures Find(entries, entries[i].key) == Some(entries[i])
  {
    var n := |entries| - 1;
    if i < n {
      FindIs(entries[..n], i);
    }
  }

  /** The existing keys that are kept, in their order. */
  function KeptKeys(dst: seq<Entry>, src: seq<Entry>, drop: set<string>, n: nat): seq<string>
    requires n <= |dst|
  {
    if n == 0 then []
    else
      var k := dst[n - 1].key;
      KeptKeys(dst, src, drop, n - 1) + (if k in drop && !Has(src, k) then [] else [k])
  }

  /** The installer's keys the file lacks, in its order. */
  function NewKeys(dst: seq<Entry>, src: seq<Entry>, n: nat): seq<string>
    requires n <= |src|
  {
    if n == 0 then [] else NewKeys(dst, src, n - 1) + (if Has(dst, src[n - 1].key) then [] else [src[n - 1].key])
  }

  lemma KeysConcat(a: seq<Entry>, b: seq<Entry>)
    ensures Keys(a + b) == Keys(a) + Keys(b)
  {
  }

  lemma EntryKeys(e: Entry, src: seq<Entry>, drop: set<string>)
    ensures Keys(MergedEntry(e, src, drop)) == if e.key in drop && !Has(src, e.key) then [] else [e.key]
  {
  }

  lemma {:induction false} OldKeys(dst: Node, src: seq<Entry>, drop: set<string>, n: nat)
    requires dst.Mapping? && n <= |dst.entries|
    ensures Keys(MergedOld(dst, src, drop, n)) == KeptKeys(dst.entries, src, drop, n)
  {
    if n > 0 {
      OldKeys(dst, src, drop, n - 1);
      EntryKeys(dst.entries[n - 1], src, drop);
      KeysConcat(MergedOld(dst, src, drop, n - 1), MergedEntry(dst.entries[n - 1], src, drop));
    }
  }

  lemma {:induction false} AddedKeys(dst: seq<Entry>, src: seq<Entry>, n: nat)
    requires n <= |src|
    ensures Keys(Added(dst, src, n)) == NewKeys(dst, src, n)
  {
    if n > 0 {
      AddedKeys(dst, src, n - 1);
      KeyAdded(Added(dst, src, n - 1), dst, src, n);
    }
  }

  lemma KeyAdded(before: seq<Entry>, dst: seq<Entry>, src: seq<Entry>, n: nat)
    requires 0 < n <= |src| && Keys(before) == NewKeys(dst, src, n - 1)
    ensures Keys(before + NewEntry(dst, src, src[n - 1].key)) == NewKeys(dst, src, n)
  {
    KeysConcat(before, NewEntry(dst, src, src[n - 1].key));
  }

  /** The existing keys first, in their order, without the dropped ones; then the new ones. */
  lemma KeyOrder(dst: Node, src: Node, drop: set<string>)
    requires dst.Mapping? && src.Mapping?
    ensures Keys(Merged(dst, src, drop).entries)
         == KeptKeys(dst.entries, src.entries, drop, |dst.entries|) + NewKeys(dst.entries, src.entries, |src.entries|)
  {
    var was := MergedOld(dst, src.entries, drop, |dst.entries|);
    var added := Added(dst.entries, src.entries, |src.entries|);
    OldKeys(dst, src.entries, drop, |dst.entries|);
    AddedKeys(dst.entries, src.entries, |src.entries|);
    KeysConcat(was, added);
  }

  // ---------- Each key's value ----------

  lemma EntryKey(e: Entry, src: seq<Entry>, drop: set<string>)
    ensures var r := MergedEntry(e, src, drop); |r| <= 1 && (r != [] ==> r[0].key == e.key)
  {
  }

  lemma {:induction false} OldEntry(dst: Node, src: seq<Entry>, drop: set<string>, n: nat, k: string)
    requires dst.Mapping? && n <= |dst.entries| && DistinctKeys(dst.entries)
    ensures var d := Find(dst.entries[..n], k);
      Find(MergedOld(dst, src, drop, n), k)
      == if d.None? || MergedEntry(d.value, src, drop) == [] then None else Some(MergedEntry(d.value, src, drop)[0])
  {
    if n > 0 {
      OldEntry(dst, src, drop, n - 1, k);
      EntryKey(dst.entries[n - 1], src, drop);
      FindSnoc(MergedOld(dst, src, drop, n - 1), MergedEntry(dst.entries[n - 1], src, drop), k);
      FindPrefix(dst.entries, n, k);
    }
  }

  lemma FindTake(entries: seq<Entry>, n: nat, k: string)
    requires 0 < n <= |entries|
    ensures Find(entries[..n], k) == if entries[n - 1].key == k then Some(entries[n - 1]) else Find(entries[..n - 1], k)
  {
    assert entries[..n][..n - 1] == entries[..n - 1];
  }

  lemma FindSnoc(a: seq<Entry>, b: seq<Entry>, k: string)
    requires |b| <= 1
    ensures Find(a + b, k) == if b != [] && b[0].key == k then Some(b[0]) else Find(a, k)
  {
    if b == [] {
      assert a + b == a;
    } else {
      assert (a + b)[..|a|] == a;
    }
  }

  lemma {:induction false} FindConcat(a: seq<Entry>, b: seq<Entry>, k: string)
    ensures Find(a + b, k) == if Has(b, k) then Find(b, k) else Find(a, k)
  {
    if b == [] {
      assert a + b == a;
    } else {
      assert (a + b)[..|a + b| - 1] == a + b[..|b| - 1];
      FindConcat(a, b[..|b| - 1], k);
    }
  }

  /** The entry added for a key by the first n entries of src. */
  function AddedFor(dst: seq<Entry>, src: seq<Entry>, n: nat, k: string): Option<Entry>
    requires n <= |src|
  {
    if Has(dst, k) || !Has(src[..n], k) then None else Find(src, k)
  }

  /** Parts that hold one entry or none, one after the other. */
  function Joined(parts: seq<seq<Entry>>): seq<Entry> {
    if parts == [] then [] else Joined(parts[..|parts| - 1]) + parts[|parts| - 1]
  }

  /** Part i is for keys[i], and the same key always has the same part. */
  ghost predicate KeyedBy(parts: seq<seq<Entry>>, keys: seq<string>) {
    && |parts| == |keys|
    && (forall i | 0 <= i < |parts| :: |parts[i]| <= 1 && (parts[i] != [] ==> parts[i][0].key == keys[i]))
    && forall i, j | 0 <= i < j < |parts| :: keys[i] == keys[j] ==> parts[i] == parts[j]
  }

  lemma {:induction false} NotJoined(parts: seq<seq<Entry>>, keys: seq<string>, k: string)
    requires KeyedBy(parts, keys) && k !in keys
    ensures Find(Joined(parts), k) == None
  {
    if parts != [] {
      var n := |parts| - 1;
      assert keys[n] in keys && forall x | x in keys[..n] :: x in keys;
      NotJoined(parts[..n], keys[..n], k);
      FindSnoc(Joined(parts[..n]), parts[n], k);
    }
  }

  lemma {:induction false} FindJoined(parts: seq<seq<Entry>>, keys: seq<string>, k: string, i: nat)
    requires KeyedBy(parts, keys) && i < |keys| && keys[i] == k
    ensures Find(Joined(parts), k) == if parts[i] == [] then None else Some(parts[i][0])
  {
    var n := |parts| - 1;
    FindSnoc(Joined(parts[..n]), parts[n], k);
    if i < n {
      FindJoined(parts[..n], keys[..n], k, i);
    } else if k in keys[..n] {
      var j :| 0 <= j < n && keys[..n][j] == k;
      FindJoined(parts[..n], keys[..n], k, j);
    } else {
      NotJoined(parts[..n], keys[..n], k);
    }
  }

  /** What each of the first n keys of src adds. */
  function AddedParts(dst: seq<Entry>, src: seq<Entry>, n: nat): (r: seq<seq<Entry>>)
    requires n <= |src|
    ensures |r| == n
  {
    seq(n, i requires 0 <= i < n => NewEntry(dst, src, src[i].key))
  }

  lemma {:induction false} AddedIsJoined(dst: seq<Entry>, src: seq<Entry>, n: nat)
    requires n <= |src|
    ensures Added(dst, src, n) == Joined(AddedParts(dst, src, n))
  {
    if n > 0 {
      AddedIsJoined(dst, src, n - 1);
      assert AddedParts(dst, src, n)[..n - 1] == AddedParts(dst, src, n - 1);
    }
  }

  lemma AddedEntry(dst: seq<Entry>, src: seq<Entry>, n: nat, k: string)
    requires n <= |src|
    ensures Find(Added(dst, src, n), k) == AddedFor(dst, src, n, k)
  {
    AddedIsJoined(dst, src, n);
    if Has(src[..n], k) {
      var i :| 0 <= i < n && src[i].key == k;
      assert Keys(src[..n])[i] == k && AddedParts(dst, src, n)[i] == NewEntry(dst, src, k);
      FindJoined(AddedParts(dst, src, n), Keys(src[..n]), k, i);
    } else {
      NotJoined(AddedParts(dst, src, n), Keys(src[..n]), k);
    }
  }

  /** What the merge has under a key, from what both sides have under it. */
  lemma MergedAt(dst: Node, src: Node, drop: set<string>, k: string)
    requires dst.Mapping? && src.Mapping? && DistinctKeys(dst.entries)
    ensures var d, s := Find(dst.entries, k), Find(src.entries, k); var m := Find(Merged(dst, src, drop).entries, k);
      && (d.None? ==> m == s)
      && (d.Some? && s.None? ==> m == if k in drop then None else d)
      && (d.Some? && s.Some? && d.value.val.Mapping? && s.value.val.Mapping? ==>
            m == Some(d.value.(val := Merged(d.value.val, s.value.val, {}))))
      && (d.Some? && s.Some? && !(d.value.val.Mapping? && s.value.val.Mapping?) ==>
            m == Some(d.value.(val := WithComments(s.value.val, d.value.val))))
  {
    OldEntry(dst, src.entries, drop, |dst.entries|, k);
    AddedEntry(dst.entries, src.entries, |src.entries|, k);
    assert dst.entries[..|dst.entries|] == dst.entries && src.entries[..|src.entries|] == src.entries;
    FindConcat(MergedOld(dst, src.entries, drop, |dst.entries|), Added(dst.entries, src.entries, |src.entries|), k);
  }

  /** At the top the three keys of earlier versions go, unless the installer sets them, and no
      other key of the file does. */
  lemma OnlyRetiredKeysGo(dst: Node, src: Node, k: string)
    requires dst.Mapping? && src.Mapping? && DistinctKeys(dst.entries) && Has(dst.entries, k)
    ensures Find(Merged(dst, src, RETIRED).entries, k).None? <==>
      (k == "launch_ramp" || k == "control_port" || k == "standalone") && !Has(src.entries, k)
  {
    MergedAt(dst, src, RETIRED, k);
  }

  // ---------- At every depth ----------

  /** The value at a path of keys. */
  function Get(n: Node, path: seq<string>): Option<Node> {
    if path == [] then Some(n)
    else if n.Leaf? || !Has(n.entries, path[0]) then None
    else Get(Find(n.entries, path[0]).value.val, path[1..])
  }

  /** The path is there in the file, and leaves what the installer knows at its last
      common mapping. */
  predicate OnlyInOld(dst: Node, src: Node, path: seq<string>)
    requires dst.Mapping? && src.Mapping?
    decreases path
  {
    path != [] && Has(dst.entries, path[0]) && Get(dst, path).Some? &&
    if !Has(src.entries, path[0]) then true
    else
      var d, s := Find(dst.entries, path[0]).value.val, Find(src.entries, path[0]).value.val;
      d.Mapping? && s.Mapping? && OnlyInOld(d, s, path[1..])
  }

  lemma WellFormedAt(n: Node, k: string)
    requires WellFormed(n) && n.Mapping? && Has(n.entries, k)
    ensures WellFormed(Find(n.entries, k).value.val) && DistinctKeys(n.entries)
  {
    var e := Find(n.entries, k).value;
    var i :| 0 <= i < |n.entries| && n.entries[i] == e;
  }

  /** What only the file has survives verbatim, however deep, but for retired keys at the top. */
  lemma {:induction false} UnknownKeysSurvive(dst: Node, src: Node, drop: set<string>, path: seq<string>)
    requires dst.Mapping? && src.Mapping? && WellFormed(dst) && OnlyInOld(dst, src, path)
    ensures Get(Merged(dst, src, drop), path) ==
      if path[0] in drop && !Has(src.entries, path[0]) then None else Get(dst, path)
    decreases path
  {
    MergedAt(dst, src, drop, path[0]);
    if Has(src.entries, path[0]) {
      WellFormedAt(dst, path[0]);
      UnknownKeysSurvive(Find(dst.entries, path[0]).value.val, Find(src.entries, path[0]).value.val, {}, path[1..]);
    }
  }

  lemma {:induction false} GetWithComments(src: Node, was: Node, path: seq<string>)
    ensures Get(WithComments(src, was), path) == if path == [] then Some(WithComments(src, was)) else Get(src, path)
  {
  }

  /** Every value the installer sets is set, however deep. */
  lemma {:induction false} InstallerValuesWin(dst: Node, src: Node, drop: set<string>, path: seq<string>)
    requires dst.Mapping? && src.Mapping? && WellFormed(dst) && path != []
    requires Get(src, path).Some? && Get(src, path).value.Leaf?
    ensures var m := Get(Merged(dst, src, drop), path);
      m.Some? && m.value.Leaf? && m.value.text == Get(src, path).value.text
    decreases path
  {
    var k := path[0];
    MergedAt(dst, src, drop, k);
    var s := Find(src.entries, k).value.val;
    if Has(dst.entries, k) {
      var d := Find(dst.entries, k).value.val;
      if d.Mapping? && s.Mapping? {
        WellFormedAt(dst, k);
        InstallerValuesWin(d, s, {}, path[1..]);
      } else {
        GetWithComments(s, d, path[1..]);
      }
    }
  }

  /** The entry at a path of keys. */
  function EntryAt(n: Node, path: seq<string>): Option<Entry>
    requires path != []
    decreases path
  {
    if n.Leaf? || !Has(n.entries, path[0]) then None
    else if |path| == 1 then Find(n.entries, path[0])
    else EntryAt(Find(n.entries, path[0]).value.val, path[1..])
  }

  /** Both have an entry at the path, below mappings of both. */
  predicate InBoth(dst: Node, src: Node, path: seq<string>)
    requires path != []
    decreases path
  {
    && dst.Mapping? && src.Mapping? && Has(dst.entries, path[0]) && Has(src.entries, path[0])
    && (|path| == 1 || InBoth(Find(dst.entries, path[0]).value.val, Find(src.entries, path[0]).value.val, path[1..]))
  }

  /** No comment of the file is lost, however deep: those of a key stay, and those of a value
      stay unless the installer replaces the value and has a comment of its own there. */
  lemma {:induction false} CommentsAreCarried(dst: Node, src: Node, drop: set<string>, path: seq<string>)
    requires path != [] && WellFormed(dst) && InBoth(dst, src, path)
    ensures EntryAt(dst, path).Some? && EntryAt(src, path).Some?
    ensures var m := EntryAt(Merged(dst, src, drop), path);
      var was, mine := EntryAt(dst, path).value, EntryAt(src, path).value;
      && m.Some? && m.value.keyNote == was.keyNote
      && (var replaced := !(was.val.Mapping? && mine.val.Mapping?);
          && m.value.val.note.line == Kept(was.val.note.line, mine.val.note.line, replaced)
          && m.value.val.note.head == Kept(was.val.note.head, mine.val.note.head, replaced)
          && m.value.val.note.foot == Kept(was.val.note.foot, mine.val.note.foot, replaced))
    decreases path
  {
    MergedAt(dst, src, drop, path[0]);
    if |path| > 1 {
      WellFormedAt(dst, path[0]);
      CommentsAreCarried(Find(dst.entries, path[0]).value.val, Find(src.entries, path[0]).value.val, {}, path[1..]);
    }
  }

  /** The comment a value ends with. */
  function Kept(was: string, mine: string, replaced: bool): string {
    if replaced && mine != "" then mine else was
  }

  // ---------- Merging twice ----------

  lemma CarriedTwice(mine: Comments, was: Comments)
    ensures CarriedNote(mine, CarriedNote(mine, was)) == CarriedNote(mine, was)
    ensures CarriedNote(mine, mine) == mine
  {
  }

  /** A mapping whose entries the installer's mapping has all, unchanged by a merge. */
  ghost predicate Settled(m: Node, src: Node, drop: set<string>)
    requires m.Mapping? && src.Mapping?
  {
    && (forall i | 0 <= i < |m.entries| :: MergedEntry(m.entries[i], src.entries, drop) == [m.entries[i]])
    && forall i | 0 <= i < |src.entries| :: Has(m.entries, src.entries[i].key)
  }

  lemma {:induction false} SettledOld(m: Node, src: Node, drop: set<string>, n: nat)
    requires m.Mapping? && src.Mapping? && Settled(m, src, drop) && n <= |m.entries|
    ensures MergedOld(m, src.entries, drop, n) == m.entries[..n]
  {
    if n > 0 {
      SettledOld(m, src, drop, n - 1);
      assert m.entries[..n] == m.entries[..n - 1] + [m.entries[n - 1]];
    }
  }

  lemma {:induction false} SettledAdds(m: Node, src: Node, drop: set<string>, n: nat)
    requires m.Mapping? && src.Mapping? && Settled(m, src, drop) && n <= |src.entries|
    ensures Added(m.entries, src.entries, n) == []
  {
    if n > 0 {
      SettledAdds(m, src, drop, n - 1);
    }
  }

  lemma SettledIsFixed(m: Node, src: Node, drop: set<string>)
    requires m.Mapping? && src.Mapping? && Settled(m, src, drop)
    ensures Merged(m, src, drop) == m
  {
    SettledOld(m, src, drop, |m.entries|);
    SettledAdds(m, src, drop, |src.entries|);
    assert m.entries[..|m.entries|] + [] == m.entries;
  }

  lemma WellFormedEntry(n: Node, i: nat)
    requires n.Mapping? && WellFormed(n) && i < |n.entries|
    ensures WellFormed(n.entries[i].val)
  {
  }

  /** Merging a mapping into itself, whatever its own comments, changes nothing. */
  lemma {:induction false} MergeSelf(m: Node, src: Node)
    requires m.Mapping? && src.Mapping? && m.entries == src.entries && WellFormed(src)
    ensures Merged(m, src, {}) == m
    decreases src
  {
    forall i | 0 <= i < |m.entries|
      ensures MergedEntry(m.entries[i], src.entries, {}) == [m.entries[i]]
      ensures Has(m.entries, src.entries[i].key)
    {
      FindIs(src.entries, i);
      var v := src.entries[i].val;
      WellFormedEntry(src, i);
      if v.Mapping? {
        MergeSelf(v, v);
      } else {
        CarriedTwice(v.note, v.note);
      }
    }
    SettledIsFixed(m, src, {});
  }

  /** An entry that came out of a merge comes out of the next one unchanged. */
  lemma EntrySettles(e: Entry, src: seq<Entry>, drop: set<string>, r: Entry)
    requires MergedEntry(e, src, drop) == [r]
    requires Has(src, e.key) ==> WellFormed(Find(src, e.key).value.val)
    requires Has(src, e.key) && e.val.Mapping? && Find(src, e.key).value.val.Mapping? ==>
      var s := Find(src, e.key).value.val; Merged(Merged(e.val, s, {}), s, {}) == Merged(e.val, s, {})
    ensures MergedEntry(r, src, drop) == [r]
  {
    var s := Find(src, e.key);
    if s.Some? {
      CarriedTwice(s.value.val.note, e.val.note);
      if s.value.val.Mapping? && !e.val.Mapping? {
        MergeSelf(r.val, s.value.val);
      }
    }
  }

  /** An entry that was added comes out of the next merge unchanged. */
  lemma AddedSettles(e: Entry, src: seq<Entry>, drop: set<string>)
    requires Find(src, e.key) == Some(e) && WellFormed(e.val)
    ensures MergedEntry(e, src, drop) == [e]
  {
    CarriedTwice(e.val.note, e.val.note);
    if e.val.Mapping? {
      MergeSelf(e.val, e.val);
    }
  }

  lemma {:induction false} OldFrom(dst: Node, src: seq<Entry>, drop: set<string>, n: nat, i: nat) returns (j: nat)
    requires dst.Mapping? && n <= |dst.entries| && i < |MergedOld(dst, src, drop, n)|
    ensures j < n && MergedEntry(dst.entries[j], src, drop) == [MergedOld(dst, src, drop, n)[i]]
  {
    if i < |MergedOld(dst, src, drop, n - 1)| {
      j := OldFrom(dst, src, drop, n - 1, i);
    } else {
      j := n - 1;
    }
  }

  lemma {:induction false} AddedFrom(dst: seq<Entry>, src: seq<Entry>, n: nat, i: nat)
    requires n <= |src| && i < |Added(dst, src, n)|
    ensures var e := Added(dst, src, n)[i]; Find(src, e.key) == Some(e) && e in src
  {
    if i < |Added(dst, src, n - 1)| {
      AddedFrom(dst, src, n - 1, i);
    }
  }

  /** The second merge changes nothing: not a value, not the order, not a comment. */
  lemma {:induction false} MergeIsIdempotent(dst: Node, src: Node, drop: set<string>)
    requires dst.Mapping? && src.Mapping? && WellFormed(dst) && WellFormed(src)
    ensures Merged(Merged(dst, src, drop), src, drop) == Merged(dst, src, drop)
    decreases dst
  {
    var m := Merged(dst, src, drop);
    forall i | 0 <= i < |m.entries|
      ensures MergedEntry(m.entries[i], src.entries, drop) == [m.entries[i]]
    {
      MergedEntrySettles(dst, src, drop, i);
    }
    forall i | 0 <= i < |src.entries|
      ensures Has(m.entries, src.entries[i].key)
    {
      FindIs(src.entries, i);
      MergedAt(dst, src, drop, src.entries[i].key);
    }
    SettledIsFixed(m, src, drop);
  }

  lemma {:induction false} MergedEntrySettles(dst: Node, src: Node, drop: set<string>, i: nat)
    requires dst.Mapping? && src.Mapping? && WellFormed(dst) && WellFormed(src) && i < |Merged(dst, src, drop).entries|
    ensures var r := Merged(dst, src, drop).entries[i]; MergedEntry(r, src.entries, drop) == [r]
    decreases dst, 0
  {
    var was := MergedOld(dst, src.entries, drop, |dst.entries|);
    if i < |was| {
      var j := OldFrom(dst, src.entries, drop, |dst.entries|, i);
      var e := dst.entries[j];
      if Has(src.entries, e.key) {
        WellFormedAt(src, e.key);
        var s := Find(src.entries, e.key).value.val;
        WellFormedEntry(dst, j);
        if e.val.Mapping? && s.Mapping? {
          MergeIsIdempotent(e.val, s, {});
        }
      }
      EntrySettles(e, src.entries, drop, was[i]);
    } else {
      AddedFrom(dst.entries, src.entries, |src.entries|, i - |was|);
      var e := Merged(dst, src, drop).entries[i];
      WellFormedAt(src, e.key);
      AddedSettles(e, src.entries, drop);
    }
  }

  // ---------- Removing partitions ----------

  /** The two keys that name partitions: the mapping of all, and the default one. */
  datatype PartitionKeys = PartitionKeys(all: string, default: string)

  const CONFIG_KEYS := PartitionKeys("partitions", "default_partition")

  /** The first n entries whose keys are not gone. */
  function Without(entries: seq<Entry>, gone: set<string>, n: nat): seq<Entry>
    requires n <= |entries|
  {
    if n == 0 then []
    else Without(entries, gone, n - 1) + (if entries[n - 1].key in gone then [] else [entries[n - 1]])
  }

  function NamesGone(n: Node, gone: set<string>): bool {
    n.Leaf? && n.text in gone
  }

  function PrunedEntry(e: Entry, ks: PartitionKeys, gone: set<string>, newDefault: string): seq<Entry> {
    if e.key == ks.all && e.val.Mapping? then
      [e.(val := e.val.(entries := Without(e.val.entries, gone, |e.val.entries|)))]
    else if e.key == ks.default && e.key != ks.all && NamesGone(e.val, gone) then
      (if newDefault == "" then [] else [e.(val := e.val.(text := newDefault))])
    else [e]
  }

  function Pruned(entries: seq<Entry>, ks: PartitionKeys, gone: set<string>, newDefault: string, n: nat): seq<Entry>
    requires n <= |entries|
  {
    if n == 0 then []
    else Pruned(entries, ks, gone, newDefault, n - 1) + PrunedEntry(entries[n - 1], ks, gone, newDefault)
  }

  method KeepOthers(entries: seq<Entry>, gone: set<string>) returns (kept: seq<Entry>)
    ensures kept == Without(entries, gone, |entries|)
  {
    kept := [];
    for i := 0 to |entries|
      invariant kept == Without(entries, gone, i)
    {
      if entries[i].key !in gone {
        kept := kept + [entries[i]];
      }
    }
  }

  /** A document that is not a mapping is left as it is. */
  method RemovePartitions(root: Node, ks: PartitionKeys, names: seq<string>, newDefault: string) returns (out: Node)
    requires ks.all != ks.default
    ensures out == if root.Leaf? then root
                   else root.(entries := Pruned(root.entries, ks, (set n | n in names), newDefault, |root.entries|))
  {
    if root.Leaf? {
      return root;
    }
    var gone := set n | n in names;
    var kept: seq<Entry> := [];
    for i := 0 to |root.entries|
      invariant kept == Pruned(root.entries, ks, gone, newDefault, i)
    {
      var e := root.entries[i];
      if e.key == ks.all {
        if e.val.Mapping? {
          var parts := KeepOthers(e.val.entries, gone);
          e := e.(val := e.val.(entries := parts));
        }
        kept := kept + [e];
      } else if e.key == ks.default && NamesGone(e.val, gone) {
        if newDefault != "" {
          kept := kept + [e.(val := e.val.(text := newDefault))];
        }
      } else {
        kept := kept + [e];
      }
    }
    out := root.(entries := kept);
  }

  lemma {:induction false} WithoutIs(entries: seq<Entry>, gone: set<string>, n: nat, k: string)
    requires n <= |entries|
    ensures Find(Without(entries, gone, n), k) == if k in gone then None else Find(entries[..n], k)
  {
    if n > 0 {
      WithoutIs(entries, gone, n - 1, k);
      FindTake(entries, n, k);
      FindSnoc(Without(entries, gone, n - 1), if entries[n - 1].key in gone then [] else [entries[n - 1]], k);
    }
  }

  lemma PrunedKey(e: Entry, ks: PartitionKeys, gone: set<string>, newDefault: string)
    ensures var r := PrunedEntry(e, ks, gone, newDefault); |r| <= 1 && (r != [] ==> r[0].key == e.key)
  {
  }

  /** The last of the first n entries is the one of its key, and of no other. */
  lemma FindPrefix(entries: seq<Entry>, n: nat, k: string)
    requires 0 < n <= |entries| && DistinctKeys(entries)
    ensures Find(entries[..n], k) == if entries[n - 1].key == k then Some(entries[n - 1]) else Find(entries[..n - 1], k)
    ensures entries[n - 1].key == k ==> Find(entries[..n - 1], k).None?
  {
    FindTake(entries, n, k);
  }

  lemma {:induction false} PrunedFind(entries: seq<Entry>, ks: PartitionKeys, gone: set<string>, newDefault: string,
                                      n: nat, k: string)
    requires n <= |entries| && DistinctKeys(entries)
    ensures Find(Pruned(entries, ks, gone, newDefault, n), k) == PrunedFor(Find(entries[..n], k), ks, gone, newDefault)
  {
    if n > 0 {
      PrunedFind(entries, ks, gone, newDefault, n - 1, k);
      FindPrefix(entries, n, k);
      PrunedStep(Pruned(entries, ks, gone, newDefault, n - 1), entries[n - 1], Find(entries[..n - 1], k), ks, gone,
                 newDefault, k);
    }
  }

  lemma PrunedStep(before: seq<Entry>, e: Entry, was: Option<Entry>, ks: PartitionKeys, gone: set<string>,
                   newDefault: string, k: string)
    requires Find(before, k) == PrunedFor(was, ks, gone, newDefault) && (e.key == k ==> was.None?)
    ensures Find(before + PrunedEntry(e, ks, gone, newDefault), k)
         == PrunedFor(if e.key == k then Some(e) else was, ks, gone, newDefault)
  {
    PrunedKey(e, ks, gone, newDefault);
    FindSnoc(before, PrunedEntry(e, ks, gone, newDefault), k);
  }

  function PrunedFor(e: Option<Entry>, ks: PartitionKeys, gone: set<string>, newDefault: string): Option<Entry> {
    if e.None? || PrunedEntry(e.value, ks, gone, newDefault) == [] then None
    else Some(PrunedEntry(e.value, ks, gone, newDefault)[0])
  }

  /** Exactly the named partitions go; a default that names one of them becomes the new one, or
      goes if there is none; every other key keeps its entry, comments and all. */
  lemma PartitionsAreRemoved(root: Node, ks: PartitionKeys, gone: set<string>, newDefault: string, k: string)
    requires root.Mapping? && DistinctKeys(root.entries) && ks.all != ks.default
    ensures var e := Find(root.entries, k);
      var r := Find(Pruned(root.entries, ks, gone, newDefault, |root.entries|), k);
      && (k != ks.all && k != ks.default ==> r == e)
      && (k == ks.all && e.Some? && e.value.val.Mapping? ==>
            r.Some? && r.value.val.Mapping? &&
            forall p :: Find(r.value.val.entries, p) == if p in gone then None else Find(e.value.val.entries, p))
      && (k == ks.default && newDefault !in gone && r.Some? ==> !NamesGone(r.value.val, gone))
      && (k == ks.default && e.Some? && !(e.value.val.Leaf? && e.value.val.text in gone) ==> r == e)
      && (k == ks.default && e.Some? && e.value.val.Leaf? && e.value.val.text in gone ==>
            r == if newDefault == "" then None else Some(e.value.(val := e.value.val.(text := newDefault))))
  {
    var e := Find(root.entries, k);
    assert root.entries[..|root.entries|] == root.entries;
    PrunedFind(root.entries, ks, gone, newDefault, |root.entries|, k);
    if e.Some? && e.value.val.Mapping? {
      WithoutAll(e.value.val.entries, gone);
    }
  }

  lemma WithoutAll(parts: seq<Entry>, gone: set<string>)
    ensures forall p :: Find(Without(parts, gone, |parts|), p) == if p in gone then None else Find(parts, p)
  {
    assert parts[..|parts|] == parts;
    forall p
      ensures Find(Without(parts, gone, |parts|), p) == if p in gone then None else Find(parts, p)
    {
      WithoutIs(parts, gone, |parts|, p);
    }
  }
}
