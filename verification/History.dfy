/** The month-long history of each tunnel: recent samples and hourly buckets, updated one reading at a time. */
module History {
  import opened Basics

  const RECENT: nat := 288  // keepRecent
  const HOURLY: nat := 720  // keepHourly

  type Name = string

  /** One reading; `t` is in unix seconds, the byte counts are cumulative. */
  datatype Sample = Sample(t: int, bytesIn: nat, bytesOut: nat, up: bool)

  /** One hourly bucket: `upN` of its `n` readings found the tunnel up. */
  datatype Hour = Hour(t: int, bytesIn: nat, bytesOut: nat, upN: nat, n: nat)

  /** now.Truncate(time.Hour).Unix() */
  function HourOf(t: int): (start: int)
    ensures start <= t < start + 3600 && start % 3600 == 0
  {
    t / 3600 * 3600
  }

  // ------------------------------------------------------------------------
  // The simple definition, over the full history
  // ------------------------------------------------------------------------

  /** What sorts readings into buckets: here the start of the hour. */
  type Hourly = Sample -> int

  const ByHour: Hourly := (s: Sample) => HourOf(s.t)

  /** Puts one reading in front of the groups of the readings after it. */
  function Push(key: Hourly, x: Sample, next: seq<Sample>, groups: seq<seq<Sample>>): seq<seq<Sample>>
    requires next == [] || groups != []
  {
    if next != [] && key(x) == key(next[0]) then [[x] + groups[0]] + groups[1..] else [[x]] + groups
  }

  /** The history cut wherever the hour changes from one reading to the next. */
  function Cut(key: Hourly, all: seq<Sample>): (groups: seq<seq<Sample>>)
    ensures all == [] <==> groups == []
  {
    if all == [] then [] else Push(key, all[0], all[1..], Cut(key, all[1..]))
  }

  function UpCount(group: seq<Sample>): nat {
    Count(group, (s: Sample) => s.up)
  }

  /** The bucket of a group: its hour, its last byte counts, its readings up and its readings. */
  function Summary(key: Hourly, group: seq<Sample>): Hour {
    if group == [] then Hour(0, 0, 0, 0, 0) else
    var last := group[|group| - 1];
    Hour(key(last), last.bytesIn, last.bytesOut, UpCount(group), |group|)
  }

  function Summaries(key: Hourly, groups: seq<seq<Sample>>): (hours: seq<Hour>)
    ensures |hours| == |groups|
    ensures forall i :: 0 <= i < |groups| ==> hours[i] == Summary(key, groups[i])
  {
    seq(|groups|, i requires 0 <= i < |groups| => Summary(key, groups[i]))
  }

  function Hours(key: Hourly, all: seq<Sample>): seq<Hour> {
    Summaries(key, Cut(key, all))
  }

  function LastN<T>(s: seq<T>, k: nat): seq<T> {
    if |s| > k then s[|s| - k..] else s
  }

  // ------------------------------------------------------------------------
  // One more reading
  // ------------------------------------------------------------------------

  function Extend(groups: seq<seq<Sample>>, x: Sample): seq<seq<Sample>>
    requires groups != []
  {
    groups[|groups| - 1 := groups[|groups| - 1] + [x]]
  }

  lemma PushExtend(key: Hourly, a: Sample, next: seq<Sample>, groups: seq<seq<Sample>>, x: Sample)
    requires next != [] && groups != []
    ensures Push(key, a, next, Extend(groups, x)) == Extend(Push(key, a, next, groups), x)
    ensures Push(key, a, next, groups + [[x]]) == Push(key, a, next, groups) + [[x]]
  {
    assert ([a] + groups[0]) + [x] == [a] + (groups[0] + [x]);
  }

  /** A reading either extends the last group, when its hour is that group's, or starts a new one. */
  lemma {:induction false} CutAppend(key: Hourly, all: seq<Sample>, x: Sample)
    requires all != []
    ensures Cut(key, all + [x]) ==
      if key(all[|all| - 1]) == key(x) then Extend(Cut(key, all), x) else Cut(key, all) + [[x]]
  {
    var a, next := all[0], all[1..];
    assert (all + [x])[1..] == next + [x];
    if next == [] {
      assert next + [x] == [x] && Cut(key, [x]) == Push(key, x, [], Cut(key, []));
    } else {
      CutAppend(key, next, x);
      assert (next + [x])[0] == next[0];
      PushExtend(key, a, next, Cut(key, next), x);
    }
  }

  /** The last group of a history ends with its last reading. */
  lemma {:induction false} LastGroup(key: Hourly, all: seq<Sample>)
    requires all != []
    ensures var g := Cut(key, all); var last := g[|g| - 1]; last != [] && last[|last| - 1] == all[|all| - 1]
  {
    var a, next := all[0], all[1..];
    var rest := Cut(key, next);
    assert Cut(key, all) == Push(key, a, next, rest);
    if next != [] {
      LastGroup(key, next);
      assert next[|next| - 1] == all[|all| - 1];
    }
  }

  /** The bucket that the code keeps for the newest hour, brought up to date in place. */
  function Bump(b: Hour, x: Sample): Hour {
    b.(bytesIn := x.bytesIn, bytesOut := x.bytesOut, n := b.n + 1, upN := b.upN + if x.up then 1 else 0)
  }

  function NewHour(key: Hourly, x: Sample): Hour {
    Hour(key(x), x.bytesIn, x.bytesOut, if x.up then 1 else 0, 1)
  }

  lemma SummaryAppend(key: Hourly, group: seq<Sample>, x: Sample)
    requires group != [] && key(group[|group| - 1]) == key(x)
    ensures Summary(key, group + [x]) == Bump(Summary(key, group), x)
  {
    CountAppend(group, x, (s: Sample) => s.up);
  }

  lemma SummaryOne(key: Hourly, x: Sample)
    ensures Summary(key, [x]) == NewHour(key, x)
  {
    CountAppend([], x, (s: Sample) => s.up);
    assert [] + [x] == [x];
  }

  /** One more reading, on buckets. */
  function Grow(key: Hourly, hours: seq<Hour>, x: Sample): seq<Hour> {
    var n := |hours|;
    if n > 0 && hours[n - 1].t == key(x) then hours[n - 1 := Bump(hours[n - 1], x)] else hours + [NewHour(key, x)]
  }

  lemma SummariesGrow(key: Hourly, g: seq<seq<Sample>>, x: Sample)
    ensures Summaries(key, g + [[x]]) == Summaries(key, g) + [Summary(key, [x])]
    ensures g != [] ==>
      Summaries(key, Extend(g, x)) == Summaries(key, g)[|g| - 1 := Summary(key, g[|g| - 1] + [x])]
  {}

  /** Bucketing the grown groups is growing the buckets. */
  lemma GrowGroups(key: Hourly, g: seq<seq<Sample>>, x: Sample)
    requires g != [] && g[|g| - 1] != []
    ensures
      var last := g[|g| - 1];
      Summaries(key, if key(last[|last| - 1]) == key(x) then Extend(g, x) else g + [[x]])
      == Grow(key, Summaries(key, g), x)
  {
    var last := g[|g| - 1];
    SummariesGrow(key, g, x);
    if key(last[|last| - 1]) == key(x) {
      SummaryAppend(key, last, x);
    } else {
      SummaryOne(key, x);
    }
  }

  /** The incremental bucket update agrees with recomputing all buckets from the full history. */
  lemma {:induction false} HoursAppend(key: Hourly, all: seq<Sample>, x: Sample)
    ensures Hours(key, all + [x]) == Grow(key, Hours(key, all), x)
  {
    if all == [] {
      assert all + [x] == [x] && Cut(key, [x]) == Push(key, x, [], Cut(key, [])) == [[x]];
      SummaryOne(key, x);
    } else {
      LastGroup(key, all);
      CutAppend(key, all, x);
      GrowGroups(key, Cut(key, all), x);
    }
  }

  lemma LastNAppend<T>(s: seq<T>, x: T, k: nat)
    requires k > 0
    ensures LastN(LastN(s, k) + [x], k) == LastN(s + [x], k)
  {}

  /** Editing the newest bucket commutes with trimming the oldest ones. */
  lemma LastNUpdate<T>(s: seq<T>, x: T, k: nat)
    requires k > 0 && s != []
    ensures LastN(s, k) != [] && LastN(s, k)[|LastN(s, k)| - 1] == s[|s| - 1]
    ensures LastN(s, k)[|LastN(s, k)| - 1 := x] == LastN(s[|s| - 1 := x], k)
  {}

  lemma GrowTrimmed(key: Hourly, hours: seq<Hour>, x: Sample, k: nat)
    requires k > 0
    ensures LastN(Grow(key, LastN(hours, k), x), k) == LastN(Grow(key, hours, x), k)
  {
    if hours != [] {
      LastNUpdate(hours, Bump(hours[|hours| - 1], x), k);
    }
    LastNAppend(hours, NewHour(key, x), k);
  }

  // ------------------------------------------------------------------------
  // What a bucket guarantees
  // ------------------------------------------------------------------------

  predicate OneHour(key: Hourly, group: seq<Sample>) {
    forall i :: 0 <= i < |group| ==> key(group[i]) == key(group[0])
  }

  function Flatten(groups: seq<seq<Sample>>): seq<Sample> {
    if groups == [] then [] else groups[0] + Flatten(groups[1..])
  }

  predicate Differ(key: Hourly, a: seq<Sample>, b: seq<Sample>) {
    a != [] && b != [] && key(a[0]) != key(b[0])
  }

  predicate Separated(key: Hourly, groups: seq<seq<Sample>>) {
    && (forall g :: g in groups ==> g != [] && OneHour(key, g))
    && (forall i :: 0 <= i < |groups| - 1 ==> Differ(key, groups[i], groups[i + 1]))
  }

  lemma PushSeparated(key: Hourly, a: Sample, next: seq<Sample>, groups: seq<seq<Sample>>)
    requires Separated(key, groups) && (next == [] ==> groups == [])
    requires next != [] ==> groups != [] && groups[0] != [] && groups[0][0] == next[0]
    ensures Separated(key, Push(key, a, next, groups))
    ensures Flatten(Push(key, a, next, groups)) == [a] + Flatten(groups)
  {
    if next != [] && key(a) == key(next[0]) {
      assert groups[0] in groups && OneHour(key, groups[0]);
      assert OneHour(key, [a] + groups[0]);
      assert forall g :: g in groups[1..] ==> g in groups;
      assert ([a] + groups[0]) + Flatten(groups[1..]) == [a] + (groups[0] + Flatten(groups[1..]));
    } else {
      assert Push(key, a, next, groups)[1..] == groups;
    }
  }

  /** The groups are the history itself, each non-empty and within one hour, neighbours in different hours. */
  lemma {:induction false} CutSound(key: Hourly, all: seq<Sample>)
    ensures Flatten(Cut(key, all)) == all && Separated(key, Cut(key, all))
    ensures all != [] ==> Cut(key, all)[0] != [] && Cut(key, all)[0][0] == all[0]
  {
    if all != [] {
      CutSound(key, all[1..]);
      PushSeparated(key, all[0], all[1..], Cut(key, all[1..]));
      assert Cut(key, all) == Push(key, all[0], all[1..], Cut(key, all[1..]));
    }
  }

  lemma {:induction false} CountAtMost<T>(s: seq<T>, p: T -> bool)
    ensures Count(s, p) <= |s|
  {
    if s != [] {
      CountAtMost(s[1..], p);
    }
  }

  /** No bucket counts more readings up than it has. */
  lemma {:induction false} UpAtMostAll(key: Hourly, all: seq<Sample>, i: nat)
    requires i < |Hours(key, all)|
    ensures Hours(key, all)[i].upN <= Hours(key, all)[i].n
  {
    CountAtMost(Cut(key, all)[i], (s: Sample) => s.up);
  }

  /** Which readings from `lo` up to `hi` found the tunnel up. */
  function UpIn(all: seq<Sample>, lo: nat, hi: nat): set<nat>
    requires hi <= |all|
  {
    set j: nat | lo <= j < hi && all[j].up
  }

  /** Bucket `b` is about readings `lo` to `hi`, all of its hour: how many, how many up, and the last byte counts. */
  predicate About(all: seq<Sample>, b: Hour, lo: nat, hi: nat) {
    && lo < hi <= |all|
    && b.t % 3600 == 0 && (forall j :: lo <= j < hi ==> b.t <= all[j].t < b.t + 3600)
    && b.n == hi - lo && b.upN == |UpIn(all, lo, hi)|
    && b.bytesIn == all[hi - 1].bytesIn && b.bytesOut == all[hi - 1].bytesOut
  }

  /** The buckets are about consecutive stretches of the history, from `cuts[i]` to `cuts[i + 1]`. */
  predicate Tiles(all: seq<Sample>, hours: seq<Hour>, cuts: seq<nat>) {
    && |cuts| == |hours| + 1 && cuts[0] == 0 && cuts[|hours|] == |all|
    && (forall i :: 0 <= i < |hours| ==> About(all, hours[i], cuts[i], cuts[i + 1]))
    && (forall i :: 0 < i < |hours| ==> hours[i - 1].t != hours[i].t)
  }

  lemma UpGrows(all: seq<Sample>, x: Sample, lo: nat)
    requires lo <= |all|
    ensures |UpIn(all + [x], lo, |all| + 1)| == |UpIn(all, lo, |all|)| + if x.up then 1 else 0
  {
    var was, now := UpIn(all, lo, |all|), UpIn(all + [x], lo, |all| + 1);
    assert now == if x.up then was + {|all|} else was;
  }

  lemma AboutStays(all: seq<Sample>, x: Sample, b: Hour, lo: nat, hi: nat)
    requires About(all, b, lo, hi)
    ensures About(all + [x], b, lo, hi)
  {
    assert UpIn(all + [x], lo, hi) == UpIn(all, lo, hi);
  }

  lemma AboutGrows(all: seq<Sample>, x: Sample, b: Hour, lo: nat)
    requires About(all, b, lo, |all|) && b.t == HourOf(x.t)
    ensures About(all + [x], Bump(b, x), lo, |all| + 1)
  {
    UpGrows(all, x, lo);
  }

  lemma AboutNew(all: seq<Sample>, x: Sample)
    ensures About(all + [x], NewHour(ByHour, x), |all|, |all| + 1)
  {
    UpGrows(all, x, |all|);
    assert UpIn(all, |all|, |all|) == {};
  }

  lemma {:induction false} TilesGrow(all: seq<Sample>, x: Sample, hours: seq<Hour>, cuts: seq<nat>)
    returns (more: seq<nat>)
    requires Tiles(all, hours, cuts)
    ensures Tiles(all + [x], Grow(ByHour, hours, x), more)
  {
    var n, longer := |hours|, all + [x];
    forall i | 0 <= i < n
      ensures About(longer, hours[i], cuts[i], cuts[i + 1])
    {
      AboutStays(all, x, hours[i], cuts[i], cuts[i + 1]);
    }
    if n > 0 && hours[n - 1].t == HourOf(x.t) {
      AboutGrows(all, x, hours[n - 1], cuts[n - 1]);
      more := cuts[n := |all| + 1];
    } else {
      AboutNew(all, x);
      more := cuts + [|all| + 1];
    }
  }

  /** The buckets of any history tile it: every reading is counted in the bucket of its own hour, once. */
  lemma {:induction false} HoursTile(all: seq<Sample>) returns (cuts: seq<nat>)
    ensures Tiles(all, Hours(ByHour, all), cuts)
  {
    if all == [] {
      cuts := [0];
    } else {
      var before, x := all[..|all| - 1], all[|all| - 1];
      assert all == before + [x];
      var some := HoursTile(before);
      HoursAppend(ByHour, before, x);
      cuts := TilesGrow(before, x, Hours(ByHour, before), some);
    }
  }

  // ------------------------------------------------------------------------
  // The store
  // ------------------------------------------------------------------------

  /** The newest bucket is edited in place if the hour has not changed; otherwise one is added and the rest trimmed. */
  method Roll(hourly: seq<Hour>, x: Sample) returns (hours: seq<Hour>)
    ensures
      var edited := hourly != [] && hourly[|hourly| - 1].t == HourOf(x.t);
      hours == if edited then Grow(ByHour, hourly, x) else LastN(Grow(ByHour, hourly, x), HOURLY)
  {
    hours := hourly;
    var n, start := |hours|, HourOf(x.t);
    if n > 0 && hours[n - 1].t == start {
      var b := hours[n - 1];
      b := b.(bytesIn := x.bytesIn, bytesOut := x.bytesOut, n := b.n + 1);
      if x.up {
        b := b.(upN := b.upN + 1);
      }
      hours := hours[n - 1 := b];
    } else {
      var b := Hour(start, x.bytesIn, x.bytesOut, 0, 1);
      if x.up {
        b := b.(upN := 1);
      }
      hours := hours + [b];
      if |hours| > HOURLY {
        hours := hours[|hours| - HOURLY..];
      }
    }
  }

  class Tunnel {
    var recent: seq<Sample>
    var hourly: seq<Hour>
    ghost var all: seq<Sample>

    ghost predicate Valid()
      reads this
    {
      recent == LastN(all, 288) && hourly == LastN(Hours(ByHour, all), 720)
    }

    constructor ()
      ensures Valid() && all == []
    {
      recent, hourly, all := [], [], [];
    }

    /** File.Record for one tunnel. */
    method Add(x: Sample)
      requires Valid()
      modifies this
      ensures Valid() && all == old(all) + [x]
    {
      LastNAppend(all, x, RECENT);
      HoursAppend(ByHour, all, x);
      GrowTrimmed(ByHour, Hours(ByHour, all), x, HOURLY);
      recent := recent + [x];
      if |recent| > RECENT {
        recent := recent[|recent| - RECENT..];
      }
      hourly := Roll(hourly, x);
      all := all + [x];
    }
  }

  class File {
    var tunnels: map<Name, Tunnel>

    ghost predicate Valid()
      reads this, tunnels.Values
    {
      && (forall n :: n in tunnels ==> tunnels[n].Valid())
      && (forall m, n :: m in tunnels && n in tunnels && m != n ==> tunnels[m] != tunnels[n])
    }

    /** Everything recorded for a tunnel since it was last absent. */
    ghost function Recorded(n: Name): seq<Sample>
      reads this, tunnels.Values
    {
      if n in tunnels then tunnels[n].all else []
    }

    constructor ()
      ensures Valid() && tunnels == map[]
    {
      tunnels := map[];
    }

    method Record(name: Name, x: Sample)
      requires Valid()
      modifies this, tunnels.Values
      ensures Valid() && tunnels.Keys == old(tunnels).Keys + {name}
      ensures Recorded(name) == old(Recorded(name)) + [x]
      ensures forall n :: n != name ==> Recorded(n) == old(Recorded(n))
    {
      Open(name);
      tunnels[name].Add(x);
    }

    /** An empty history for a tunnel that has none. */
    method Open(name: Name)
      requires Valid()
      modifies this
      ensures Valid() && name in tunnels && tunnels.Keys == old(tunnels).Keys + {name}
      ensures forall n :: n in old(tunnels) ==> tunnels[n] == old(tunnels)[n]
      ensures name !in old(tunnels) ==> fresh(tunnels[name]) && tunnels[name].all == []
    {
      if name !in tunnels {
        var created := new Tunnel();
        tunnels := tunnels[name := created];
      }
    }

    method Prune(current: set<Name>)
      requires Valid()
      modifies this
      ensures Valid() && tunnels.Keys == old(tunnels).Keys * current
      ensures forall n :: n in tunnels ==> tunnels[n] == old(tunnels)[n]
    {
      ghost var was := tunnels;
      var left := tunnels.Keys;
      while left != {}
        invariant left <= was.Keys
        invariant forall n :: n in tunnels <==> n in was && (n in current || n in left)
        invariant forall n :: n in tunnels ==> tunnels[n] == was[n]
        decreases left
      {
        var name :| name in left;
        if name !in current {
          tunnels := tunnels - {name};
        }
        left := left - {name};
      }
      assert tunnels.Keys == was.Keys * current;
    }
  }
}
