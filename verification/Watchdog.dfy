/** The watchdog: restarts a tunnel that was connected, is still running and has lost its connection. */
module Watchdog {
  import opened Basics

  const THRESHOLD: nat := 2               // wdThreshold
  const COOLDOWN: int := 180_000_000_000  // wdCooldown in nanoseconds

  type Name = string

  /**
   One look at one tunnel.  `at` is the clock when the cooldown is tested and `stamp` the clock after
   a restart, should there be one.
   */
  datatype Look = Look(name: Name, active: bool, healthy: bool, at: int, stamp: int)

  /** What is remembered about one tunnel. */
  datatype Track = Track(fails: nat, lastRestart: Option<int>, seenHealthy: bool)

  const Unknown := Track(0, None, false)

  predicate CooledDown(t: Track, at: int) {
    t.lastRestart.Some? ==> at - t.lastRestart.value > COOLDOWN
  }

  /** A tunnel's next state and whether it is restarted. */
  function Step(t: Track, o: Look): (Track, bool) {
    if !o.active then (t.(fails := 0), false)
    else if o.healthy then (t.(fails := 0, seenHealthy := true), false)
    else if !t.seenHealthy then (t, false)
    else if t.fails + 1 >= THRESHOLD && CooledDown(t, o.at) then
      (t.(fails := 0, lastRestart := Some(o.stamp)), true)
    else (t.(fails := t.fails + 1), false)
  }

  // ------------------------------------------------------------------------
  // Whole runs: every look the watchdog has taken, at any tunnel, in order
  // ------------------------------------------------------------------------

  function After(run: seq<Look>, name: Name): Track {
    if run == [] then Unknown else
    var n := |run| - 1;
    if run[n].name == name then Step(After(run[..n], name), run[n]).0 else After(run[..n], name)
  }

  predicate Restarts(run: seq<Look>, j: int) {
    0 <= j < |run| && Step(After(run[..j], run[j].name), run[j]).1
  }

  /** Look `j` found the tunnel running but not connected. */
  predicate Dropped(run: seq<Look>, j: int, name: Name) {
    0 <= j < |run| && run[j].name == name && run[j].active && !run[j].healthy
  }

  predicate Healthy(run: seq<Look>, j: int, name: Name) {
    0 <= j < |run| && run[j].name == name && run[j].active && run[j].healthy
  }

  /** No look after `k` and before `n` concerns the tunnel. */
  predicate LastLook(run: seq<Look>, k: int, n: int, name: Name) {
    0 <= k < n <= |run| && run[k].name == name && forall m :: k < m < n ==> run[m].name != name
  }

  predicate LastRestart(run: seq<Look>, k: int, n: int, name: Name) {
    && 0 <= k < n <= |run| && run[k].name == name && Restarts(run, k)
    && forall m :: k < m < n && run[m].name == name ==> !Restarts(run, m)
  }

  /** The tunnel's latest look found it dropped, did not restart it, and came after a healthy one. */
  predicate Pending(run: seq<Look>, k: int, h: int, name: Name) {
    LastLook(run, k, |run|, name) && Dropped(run, k, name) && !Restarts(run, k) && h < k && Healthy(run, h, name)
  }

  lemma {:induction false} RestartsPrefix(run: seq<Look>, n: nat, j: int)
    requires n <= |run| && j < n
    ensures Restarts(run[..n], j) == Restarts(run, j)
  {
    if 0 <= j {
      assert run[..n][..j] == run[..j];
    }
  }

  ghost predicate SeenMeans(run: seq<Look>, name: Name) {
    After(run, name).seenHealthy <==> exists h :: Healthy(run, h, name)
  }

  ghost predicate FailsMeans(run: seq<Look>, name: Name) {
    After(run, name).fails > 0 <==> exists k, h :: Pending(run, k, h, name)
  }

  ghost predicate RestartMeans(run: seq<Look>, name: Name) {
    && (After(run, name).lastRestart.Some? <==> exists k :: LastRestart(run, k, |run|, name))
    && (forall k :: LastRestart(run, k, |run|, name) ==> After(run, name).lastRestart == Some(run[k].stamp))
  }

  /** One more look leaves the earlier verdicts as they were. */
  lemma {:induction false} Append(run: seq<Look>, o: Look, name: Name)
    ensures forall k :: 0 <= k < |run| ==> Restarts(run + [o], k) == Restarts(run, k)
    ensures Restarts(run + [o], |run|) == Step(After(run, o.name), o).1
    ensures After(run + [o], name) == if o.name == name then Step(After(run, name), o).0 else After(run, name)
  {
    var longer := run + [o];
    assert longer[..|run|] == run;
    forall k | 0 <= k < |run|
      ensures Restarts(longer, k) == Restarts(run, k)
    {
      RestartsPrefix(longer, |run|, k);
    }
  }

  lemma {:induction false} SeenAppend(run: seq<Look>, o: Look, name: Name)
    requires SeenMeans(run, name)
    ensures SeenMeans(run + [o], name)
  {
    Append(run, o, name);
    var longer := run + [o];
    assert forall h :: Healthy(run, h, name) ==> Healthy(longer, h, name);
    assert forall h :: Healthy(longer, h, name) ==> h == |run| || Healthy(run, h, name);
    if o.name == name && o.active && o.healthy {
      assert Healthy(longer, |run|, name);
    }
  }

  lemma {:induction false} RestartAppend(run: seq<Look>, o: Look, name: Name)
    requires RestartMeans(run, name)
    ensures RestartMeans(run + [o], name)
  {
    Append(run, o, name);
    var longer, n, m := run + [o], |run|, |run| + 1;
    if o.name == name && Restarts(longer, n) {
      assert LastRestart(longer, n, m, name);
      assert forall k :: LastRestart(longer, k, m, name) ==> k == n;
    } else {
      forall k
        ensures LastRestart(longer, k, m, name) <==> LastRestart(run, k, n, name)
      {
        RestartKept(run, o, k, name);
      }
    }
  }

  /** A look that does not restart the tunnel leaves its last restart where it was. */
  lemma {:induction false} RestartKept(run: seq<Look>, o: Look, k: int, name: Name)
    requires o.name != name || !Restarts(run + [o], |run|)
    ensures LastRestart(run + [o], k, |run| + 1, name) <==> LastRestart(run, k, |run|, name)
  {
    Append(run, o, name);
  }

  lemma {:induction false} FailsAppend(run: seq<Look>, o: Look, name: Name)
    requires SeenMeans(run, name) && FailsMeans(run, name)
    ensures FailsMeans(run + [o], name)
  {
    Append(run, o, name);
    var longer, n := run + [o], |run|;
    if o.name != name {
      assert forall k, h :: Pending(run, k, h, name) ==> Pending(longer, k, h, name);
      assert forall k, h :: Pending(longer, k, h, name) ==> Pending(run, k, h, name);
    } else {
      forall k, h | Pending(longer, k, h, name)
        ensures k == n && Healthy(run, h, name)
      {}
      if Dropped(longer, n, name) && !Restarts(longer, n) {
        if h :| Healthy(run, h, name) {
          assert Pending(longer, n, h, name);
        }
      }
    }
  }

  /** The three remembered values say, of the whole run, exactly what their meanings state. */
  lemma {:induction false} TrackMeans(run: seq<Look>, name: Name)
    ensures SeenMeans(run, name) && FailsMeans(run, name) && RestartMeans(run, name)
  {
    if run != [] {
      var before, o := run[..|run| - 1], run[|run| - 1];
      assert run == before + [o];
      TrackMeans(before, name);
      SeenAppend(before, o, name);
      FailsAppend(before, o, name);
      RestartAppend(before, o, name);
    }
  }

  /**
   A look restarts its tunnel exactly when it finds it dropped, the previous look at it found the same
   without restarting it, a healthy look came before those, and the last restart is more than the
   cooldown ago.
   */
  lemma {:induction false} RestartIff(run: seq<Look>, j: int)
    requires 0 <= j < |run|
    ensures
      Restarts(run, j) <==>
      && Dropped(run, j, run[j].name)
      && (exists k, h :: Pending(run[..j], k, h, run[j].name))
      && (forall i :: LastRestart(run[..j], i, j, run[j].name) ==> run[j].at - run[i].stamp > 180_000_000_000)
  {
    TrackMeans(run[..j], run[j].name);
  }

  predicate Monotone(run: seq<Look>) {
    && (forall i :: 0 <= i < |run| ==> run[i].at <= run[i].stamp)
    && (forall i, j :: 0 <= i < j < |run| ==> run[i].stamp <= run[j].at)
  }

  lemma {:induction false} SomeLastRestart(run: seq<Look>, i: int, n: int, name: Name) returns (k: int)
    requires 0 <= i < n <= |run| && run[i].name == name && Restarts(run, i)
    ensures i <= k && LastRestart(run, k, n, name)
    decreases n - i
  {
    if m :| i < m < n && run[m].name == name && Restarts(run, m) {
      k := SomeLastRestart(run, m, n, name);
    } else {
      k := i;
    }
  }

  /** Two restarts of one tunnel are more than the cooldown apart. */
  lemma {:induction false} RestartsSpaced(run: seq<Look>, i: int, j: int)
    requires Monotone(run) && 0 <= i < j < |run| && run[i].name == run[j].name
    requires Restarts(run, i) && Restarts(run, j)
    ensures run[j].at - run[i].at > 180_000_000_000
  {
    var name := run[j].name;
    RestartsPrefix(run, j, i);
    var k := SomeLastRestart(run[..j], i, j, name);
    TrackMeans(run[..j], name);
    assert After(run[..j], name).lastRestart == Some(run[k].stamp);
    assert i < k ==> run[i].stamp <= run[k].at;
  }

  /** The looks at one tunnel. */
  function Only(run: seq<Look>, name: Name): seq<Look> {
    if run == [] then [] else
    var n := |run| - 1;
    Only(run[..n], name) + if run[n].name == name then [run[n]] else []
  }

  /** A tunnel's state, and so its restarts, depends on the looks at that tunnel alone. */
  lemma {:induction false} TunnelsIndependent(run: seq<Look>, name: Name)
    ensures After(run, name) == After(Only(run, name), name)
  {
    if run != [] {
      var n := |run| - 1;
      TunnelsIndependent(run[..n], name);
      if run[n].name == name {
        assert Only(run, name)[..|Only(run, name)| - 1] == Only(run[..n], name);
      } else {
        assert Only(run, name) == Only(run[..n], name);
      }
    }
  }

  // ------------------------------------------------------------------------
  // The loop
  // ------------------------------------------------------------------------

  class Dog {
    var fails: map<Name, nat>
    var lastRestart: map<Name, int>
    var seenHealthy: set<Name>
    ghost var run: seq<Look>

    ghost function Of(name: Name): Track
      reads this
    {
      Track(if name in fails then fails[name] else 0,
            if name in lastRestart then Some(lastRestart[name]) else None,
            name in seenHealthy)
    }

    ghost predicate Valid()
      reads this
    {
      forall name :: Of(name) == After(run, name)
    }

    constructor ()
      ensures Valid() && run == []
    {
      fails, lastRestart, seenHealthy, run := map[], map[], {}, [];
    }

    /** What one look does to the three maps: the tunnel's own entries take a step, the others stay. */
    method Judge(o: Look) returns (restarted: bool)
      modifies this`fails, this`lastRestart, this`seenHealthy
      ensures (Of(o.name), restarted) == Step(old(Of(o.name)), o)
      ensures forall name :: name != o.name ==> Of(name) == old(Of(name))
    {
      restarted := false;
      if !o.active {
        fails := fails[o.name := 0];
      } else if o.healthy {
        fails := fails[o.name := 0];
        seenHealthy := seenHealthy + {o.name};
      } else if o.name in seenHealthy {
        fails := fails[o.name := (if o.name in fails then fails[o.name] else 0) + 1];
        if fails[o.name] >= THRESHOLD
           && (o.name in lastRestart ==> o.at - lastRestart[o.name] > COOLDOWN) {
          restarted := true;
          lastRestart := lastRestart[o.name := o.stamp];
          fails := fails[o.name := 0];
        }
      }
    }

    /** One look at one tunnel: the body of the inner loop. */
    method Visit(o: Look) returns (restarted: bool)
      requires Valid()
      modifies this
      ensures Valid() && run == old(run) + [o]
      ensures restarted == Restarts(run, |run| - 1)
    {
      restarted := Judge(o);
      forall name
        ensures Of(name) == After(run + [o], name)
      {
        Append(run, o, name);
      }
      Append(run, o, o.name);
      run := run + [o];
    }

    /** One tick: every listed tunnel is looked at in turn. */
    method Tick(looks: seq<Look>) returns (restarted: seq<Name>)
      requires Valid()
      modifies this
      ensures Valid() && run == old(run) + looks
      ensures forall name :: name in restarted <==>
                exists j :: |old(run)| <= j < |run| && run[j].name == name && Restarts(run, j)
    {
      restarted := [];
      var i := 0;
      while i < |looks|
        invariant 0 <= i <= |looks|
        invariant Valid() && run == old(run) + looks[..i]
        invariant forall name :: name in restarted <==>
                    exists j :: |old(run)| <= j < |run| && run[j].name == name && Restarts(run, j)
      {
        ghost var before, was := run, restarted;
        var hit := Visit(looks[i]);
        if hit {
          restarted := restarted + [looks[i].name];
        }
        Extended(before, looks[i], |old(run)|, was, restarted);
        i := i + 1;
      }
      assert looks[..|looks|] == looks;
    }
  }

  /** The names restarted from position `from` on, when one more look is appended. */
  lemma {:induction false} Extended(run: seq<Look>, o: Look, from: nat, was: seq<Name>, names: seq<Name>)
    requires from <= |run|
    requires forall name :: name in was <==> exists j :: from <= j < |run| && run[j].name == name && Restarts(run, j)
    requires names == if Restarts(run + [o], |run|) then was + [o.name] else was
    ensures forall name :: name in names <==>
              exists j :: from <= j < |run + [o]| && (run + [o])[j].name == name && Restarts(run + [o], j)
  {
    Append(run, o, o.name);
  }
}
