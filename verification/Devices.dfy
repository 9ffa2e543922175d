/**
 Which of a node's granted devices each local rank sees.
 */
module Devices {

  datatype Assignment = Assignment(perRank: seq<seq<string>>, shared: bool)

  /** Rank i's slice of the grant, g devices wide, cut off where the grant ends. */
  function Share(devices: seq<string>, g: nat, i: nat): seq<string> {
    if i * g >= |devices| then []
    else if (i + 1) * g > |devices| then devices[i * g..]
    else devices[i * g..(i + 1) * g]
  }

  function Shares(devices: seq<string>, g: nat, n: nat): (r: seq<seq<string>>)
    ensures |r| == n
  {
    seq(n, i requires 0 <= i => Share(devices, g, i))
  }

  function Everything(devices: seq<string>, n: nat): (r: seq<seq<string>>)
    ensures |r| == n
  {
    seq(n, _ => devices)
  }

  /** The node's assignment: slices when asked for or divided, else the whole grant. */
  function Assigned(devices: seq<string>, tasks: int, gpusPerTask: int, autoDivide: bool): (a: Assignment)
    ensures |a.perRank| == if tasks < 1 then 1 else tasks
  {
    var n := if tasks < 1 then 1 else tasks;
    if gpusPerTask > 0 then Assignment(Shares(devices, gpusPerTask, n), false)
    else if !autoDivide then Assignment(Everything(devices, n), false)
    else if |devices| / n == 0 && |devices| > 0 then Assignment(Everything(devices, n), true)
    else Assignment(Shares(devices, |devices| / n, n), false)
  }

  method AssignDevices(devices: seq<string>, localTasks: int, gpusPerTask: int, autoDivide: bool)
    returns (perRank: array<seq<string>>, shared: bool)
    ensures fresh(perRank) && Assignment(perRank[..], shared) == Assigned(devices, localTasks, gpusPerTask, autoDivide)
  {
    var tasks := if localTasks < 1 then 1 else localTasks;
    perRank := new seq<string>[tasks];
    shared := false;
    var g := gpusPerTask;
    if g <= 0 {
      if !autoDivide {
        FillWith(perRank, devices);
        return;
      }
      g := |devices| / tasks;
      if g == 0 && |devices| > 0 {
        FillWith(perRank, devices);
        shared := true;
        return;
      }
    }
    FillShares(perRank, devices, g);
  }

  method FillShares(a: array<seq<string>>, devices: seq<string>, g: nat)
    modifies a
    ensures a[..] == Shares(devices, g, a.Length)
  {
    for i := 0 to a.Length
      invariant forall j | 0 <= j < i :: a[j] == Share(devices, g, j)
    {
      var lo := i * g;
      var hi := lo + g;
      assert hi == (i + 1) * g;
      if lo >= |devices| {
        a[i] := [];
      } else if hi > |devices| {
        a[i] := devices[lo..];
      } else {
        a[i] := devices[lo..hi];
      }
    }
  }

  method FillWith(a: array<seq<string>>, devices: seq<string>)
    modifies a
    ensures a[..] == Everything(devices, a.Length)
  {
    for i := 0 to a.Length
      invariant forall j | 0 <= j < i :: a[j] == devices
    {
      a[i] := devices;
    }
  }

  // ---------- What the slices are ----------

  lemma SliceBounds(n: nat, g: nat, i: nat, size: nat)
    requires i < n && n * g <= size
    ensures i * g <= (i + 1) * g <= size
  {
    assert (i + 1) * g <= n * g;
  }

  /** A request the grant covers gives every rank exactly its devices, and no device twice. */
  lemma SlicesAreDisjoint(devices: seq<string>, g: nat, n: nat, i: nat, j: nat)
    requires g > 0 && n * g <= |devices| && i < n && j < n
    requires forall a, b | 0 <= a < b < |devices| :: devices[a] != devices[b]
    ensures |Share(devices, g, i)| == g
    ensures forall d | d in Share(devices, g, i) :: d in devices
    ensures i != j ==> forall d | d in Share(devices, g, i) :: d !in Share(devices, g, j)
  {
    SliceBounds(n, g, i, |devices|);
    SliceBounds(n, g, j, |devices|);
    assert (i + 1) * g == i * g + g && (j + 1) * g == j * g + g;
    if i < j {
      SliceBounds(j, g, i, j * g);
    } else if j < i {
      SliceBounds(i, g, j, i * g);
    }
    var lo, hi := i * g, (i + 1) * g;
    assert Share(devices, g, i) == devices[lo..hi];
    assert Share(devices, g, j) == devices[j * g..(j + 1) * g];
  }

  /** Dividing the grant evenly is the request that fits it: all equal, at least one each. */
  lemma DivisionFits(devices: seq<string>, n: nat)
    requires n > 0 && |devices| / n > 0
    ensures Assigned(devices, n, 0, true) == Assigned(devices, n, |devices| / n, false)
    ensures n * (|devices| / n) <= |devices|
  {
  }

  /** The ranks share the whole grant unasked exactly when it has fewer devices than ranks. */
  lemma SharedIff(devices: seq<string>, n: nat, g: int, autoDivide: bool)
    requires n > 0
    ensures Assigned(devices, n, g, autoDivide).shared <==> g <= 0 && autoDivide && 0 < |devices| < n
  {
    if |devices| >= n {
      assert |devices| / n >= 1;
    }
  }
}
