/** When a visitor of the rathole server can be served, and in what order channels and commands go. */
module TunnelService {
  import opened Basics
  import opened Tunnel
  import opened TunnelSafety
  import opened TunnelAccounting

  // ------------------------------------------------------------------------
  // Who can be served
  // ------------------------------------------------------------------------

  /** The visitor is at client `i`: it has read the slot, and may have posted its request. */
  predicate WantsFrom(s: State, v: nat, i: nat) {
    v < |s.visitors| && (s.visitors[v] == Snapshot(i) || s.visitors[v] == Waiting(i))
  }

  predicate Offered(s: State, d: nat, i: nat) {
    d < |s.conns| && s.conns[d].router == Offering(i)
  }

  /** A channel that has presented client `i`'s key and has not yet been looked up. */
  predicate Knocking(s: State, d: nat, i: nat) {
    d < |s.conns| && i < |s.controls| && s.conns[d].router == Presented && s.conns[d].key == s.controls[i].key
  }

  /** The current client has a channel on its way, or its handler can still ask for one. */
  ghost predicate Willing(s: State, i: nat)
    requires i < |s.controls|
  {
    || (exists d :: Knocking(s, d, i))
    || s.controls[i].inFlight > 0
    || s.controls[i].phase == Running
    || RoomToWarm(s, i)
  }

  /** A channel can still reach client `i`'s visitors. */
  ghost predicate Supplied(s: State, i: nat)
    requires i < |s.controls|
  {
    || s.controls[i].pool != []
    || (exists d :: Offered(s, d, i))
    || (s.current == Some(i) && Willing(s, i))
  }

  /** In an honest run without key collisions, visitor `v` gets a channel of client `i`. */
  ghost predicate Serves(h: Nonce -> Key, s: State, v: nat, i: nat, run: seq<Step>) {
    && Runs(h, s, run) && Honest(run)
    && DistinctKeys(After(h, s, run))
    && v < |After(h, s, run).visitors|
    && After(h, s, run).visitors[v].Holding? && After(h, s, run).visitors[v].cc == i
  }

  lemma {:induction false} ServesNext(h: Nonce -> Key, s: State, v: nat, i: nat, a: Step, rest: seq<Step>)
    requires Enabled(h, s, a) && !a.Intrude? && Serves(h, Next(s, a), v, i, rest)
    ensures Serves(h, s, v, i, [a] + rest)
  {
    assert ([a] + rest)[1..] == rest;
    assert After(h, s, [a] + rest) == After(h, Next(s, a), rest);
  }

  /** Keys are told apart by the same comparison while no client is added. */
  lemma StillDistinct(s: State, a: Step)
    requires Guard(s, a) && !a.Install? && DistinctKeys(s)
    ensures DistinctKeys(Next(s, a)) && |Next(s, a).controls| == |s.controls|
  {
    GrowsStep(s, a);
  }

  lemma {:induction false} FromTake(h: Nonce -> Key, s: State, v: nat, i: nat) returns (run: seq<Step>)
    requires DistinctKeys(s) && i < |s.controls| && s.controls[i].pool != []
    requires v < |s.visitors| && s.visitors[v] == Waiting(i)
    ensures Serves(h, s, v, i, run)
  {
    StillDistinct(s, Take(v));
    assert Serves(h, Next(s, Take(v)), v, i, []);
    ServesNext(h, s, v, i, Take(v), []);
    run := [Take(v)] + [];
  }

  lemma {:induction false} FromPool(h: Nonce -> Key, s: State, v: nat, i: nat) returns (run: seq<Step>)
    requires DistinctKeys(s) && i < |s.controls| && s.controls[i].pool != [] && WantsFrom(s, v, i)
    ensures Serves(h, s, v, i, run)
  {
    if s.visitors[v] == Waiting(i) {
      run := FromTake(h, s, v, i);
    } else {
      StillDistinct(s, Post(v));
      var rest := FromTake(h, Next(s, Post(v)), v, i);
      ServesNext(h, s, v, i, Post(v), rest);
      run := [Post(v)] + rest;
    }
  }

  lemma {:induction false} FromOffer(h: Nonce -> Key, s: State, v: nat, i: nat, d: nat) returns (run: seq<Step>)
    requires DistinctKeys(s) && i < |s.controls| && s.controls[i].pool == [] && WantsFrom(s, v, i)
    requires Offered(s, d, i)
    ensures Serves(h, s, v, i, run)
  {
    StillDistinct(s, Enqueue(d));
    var rest := FromPool(h, Next(s, Enqueue(d)), v, i);
    ServesNext(h, s, v, i, Enqueue(d), rest);
    run := [Enqueue(d)] + rest;
  }

  lemma {:induction false} FromKnock(h: Nonce -> Key, s: State, v: nat, i: nat, d: nat) returns (run: seq<Step>)
    requires DistinctKeys(s) && i < |s.controls| && s.controls[i].pool == [] && WantsFrom(s, v, i)
    requires s.current == Some(i) && Knocking(s, d, i)
    ensures Serves(h, s, v, i, run)
  {
    StillDistinct(s, Lookup(d));
    LookupControls(s, d, i);
    var rest := FromOffer(h, Next(s, Lookup(d)), v, i, d);
    ServesNext(h, s, v, i, Lookup(d), rest);
    run := [Lookup(d)] + rest;
  }

  lemma {:induction false} FromFlight(h: Nonce -> Key, s: State, v: nat, i: nat) returns (run: seq<Step>)
    requires DistinctKeys(s) && i < |s.controls| && s.controls[i].pool == [] && WantsFrom(s, v, i)
    requires s.current == Some(i) && s.controls[i].inFlight > 0
    ensures Serves(h, s, v, i, run)
  {
    StillDistinct(s, Answer(i));
    var rest := FromKnock(h, Next(s, Answer(i)), v, i, |s.conns|);
    ServesNext(h, s, v, i, Answer(i), rest);
    run := [Answer(i)] + rest;
  }

  lemma {:induction false} FromRequest(h: Nonce -> Key, s: State, v: nat, i: nat) returns (run: seq<Step>)
    requires DistinctKeys(s) && i < |s.controls| && s.controls[i].pool == [] && WantsFrom(s, v, i)
    requires s.current == Some(i) && s.controls[i].phase == Running && s.controls[i].requests > 0
    ensures Serves(h, s, v, i, run)
  {
    StillDistinct(s, SendCommand(i));
    var rest := FromFlight(h, Next(s, SendCommand(i)), v, i);
    ServesNext(h, s, v, i, SendCommand(i), rest);
    run := [SendCommand(i)] + rest;
  }

  /** A request is posted by the visitor itself, or by one more visitor if it already has. */
  lemma {:induction false} FromRunning(h: Nonce -> Key, s: State, v: nat, i: nat) returns (run: seq<Step>)
    requires DistinctKeys(s) && i < |s.controls| && s.controls[i].pool == [] && WantsFrom(s, v, i)
    requires s.current == Some(i) && s.controls[i].phase == Running
    ensures Serves(h, s, v, i, run)
  {
    if s.controls[i].requests > 0 {
      run := FromRequest(h, s, v, i);
    } else if s.visitors[v] == Snapshot(i) {
      StillDistinct(s, Post(v));
      var rest := FromRequest(h, Next(s, Post(v)), v, i);
      ServesNext(h, s, v, i, Post(v), rest);
      run := [Post(v)] + rest;
    } else {
      var t, w := Next(s, Arrive), |s.visitors|;
      StillDistinct(s, Arrive);
      StillDistinct(t, Post(w));
      var rest := FromRequest(h, Next(t, Post(w)), v, i);
      ServesNext(h, t, v, i, Post(w), rest);
      ServesNext(h, s, v, i, Arrive, [Post(w)] + rest);
      run := [Arrive] + ([Post(w)] + rest);
    }
  }

  lemma {:induction false} FromWarming(h: Nonce -> Key, s: State, v: nat, i: nat) returns (run: seq<Step>)
    requires DistinctKeys(s) && i < |s.controls| && s.controls[i].pool == [] && WantsFrom(s, v, i)
    requires s.current == Some(i) && RoomToWarm(s, i) && s.controls[i].phase.sent < WARM
    ensures Serves(h, s, v, i, run)
    decreases WARM - s.controls[i].phase.sent
  {
    var t := Next(s, Warm(i));
    var rest;
    StillDistinct(s, Warm(i));
    if t.controls[i].phase == Running {
      rest := FromRunning(h, t, v, i);
    } else {
      rest := FromWarming(h, t, v, i);
    }
    ServesNext(h, s, v, i, Warm(i), rest);
    run := [Warm(i)] + rest;
  }

  lemma {:induction false} SuppliedServes(h: Nonce -> Key, s: State, v: nat, i: nat) returns (run: seq<Step>)
    requires KeysAgree(h, s) && DistinctKeys(s) && i < |s.controls| && WantsFrom(s, v, i) && Supplied(s, i)
    ensures Serves(h, s, v, i, run)
  {
    assert ControlOk(h, s, s.controls[i]);
    if s.controls[i].pool != [] {
      run := FromPool(h, s, v, i);
    } else if d :| Offered(s, d, i) {
      run := FromOffer(h, s, v, i, d);
    } else if d :| Knocking(s, d, i) {
      run := FromKnock(h, s, v, i, d);
    } else if s.controls[i].inFlight > 0 {
      run := FromFlight(h, s, v, i);
    } else if s.controls[i].phase == Running {
      run := FromRunning(h, s, v, i);
    } else {
      run := FromWarming(h, s, v, i);
    }
  }

  // ------------------------------------------------------------------------
  // Who cannot
  // ------------------------------------------------------------------------

  lemma DryHandlerStep(h: Nonce -> Key, s: State, a: Step, i: nat)
    requires KeysAgree(h, s) && Enabled(h, s, a) && HandlerStep(a) && i < |s.controls| && !Supplied(s, i)
    ensures !Supplied(Next(s, a), i)
  {
    var t := Next(s, a);
    assert ControlOk(h, s, s.controls[i]);
    assert forall d :: Offered(t, d, i) ==> Offered(s, d, i);
    assert forall d :: Knocking(t, d, i) ==> Knocking(s, d, i);
  }

  lemma DryLookup(s: State, d: nat, i: nat)
    requires Guard(s, Lookup(d)) && i < |s.controls| && !Supplied(s, i)
    ensures !Supplied(Next(s, Lookup(d)), i)
  {
    var t := Next(s, Lookup(d));
    LookupControls(s, d, i);
    forall e
      ensures !Offered(t, e, i)
    {
      assert !Offered(s, e, i);
      if e == d && s.current == Some(i) {
        assert !Knocking(s, d, i);
      }
    }
    assert forall e :: Knocking(t, e, i) ==> Knocking(s, e, i);
  }

  lemma DryOpen(h: Nonce -> Key, s: State, a: Step, i: nat)
    requires KeysAgree(h, s) && DistinctKeys(s) && Guard(s, a) && a.Answer? && i < |s.controls| && !Supplied(s, i)
    ensures !Supplied(Next(s, a), i)
  {
    var t := Next(s, a);
    assert forall d :: Offered(t, d, i) ==> Offered(s, d, i);
    forall d | Knocking(t, d, i)
      ensures Knocking(s, d, i) || (d == |s.conns| && a.i == i)
    {}
    assert a.i == i ==> s.current != Some(i);
  }

  lemma DryRoute(s: State, a: Step, i: nat)
    requires Guard(s, a) && (a.Enqueue? || a.Unclaimed?) && i < |s.controls| && !Supplied(s, i)
    ensures !Supplied(Next(s, a), i)
  {
    var t := Next(s, a);
    assert !Offered(s, a.d, i);
    assert forall d :: Offered(t, d, i) ==> Offered(s, d, i);
    assert forall d :: Knocking(t, d, i) ==> Knocking(s, d, i);
  }

  lemma DryVisitorStep(s: State, a: Step, i: nat)
    requires Guard(s, a) && !HandlerStep(a) && !ChannelStep(a) && i < |s.controls| && !Supplied(s, i)
    ensures !Supplied(Next(s, a), i)
  {
    var t := Next(s, a);
    assert forall d :: Offered(t, d, i) ==> Offered(s, d, i);
    assert forall d :: Knocking(t, d, i) ==> Knocking(s, d, i);
  }

  lemma DryStep(h: Nonce -> Key, s: State, a: Step, i: nat)
    requires KeysAgree(h, s) && DistinctKeys(s) && Enabled(h, s, a) && !a.Intrude?
    requires i < |s.controls| && !Supplied(s, i)
    ensures i < |Next(s, a).controls| && !Supplied(Next(s, a), i)
  {
    GrowsStep(s, a);
    if HandlerStep(a) {
      DryHandlerStep(h, s, a, i);
    } else if a.Lookup? {
      DryLookup(s, a.d, i);
    } else if a.Answer? {
      DryOpen(h, s, a, i);
    } else if a.Enqueue? || a.Unclaimed? {
      DryRoute(s, a, i);
    } else {
      DryVisitorStep(s, a, i);
    }
  }

  /** At client `i`, or gone from it without a channel. */
  predicate Unserved(s: State, v: nat, i: nat) {
    WantsFrom(s, v, i) || (v < |s.visitors| && s.visitors[v] == Finished)
  }

  lemma UnservedStep(s: State, a: Step, v: nat, i: nat)
    requires Guard(s, a) && i < |s.controls| && !Supplied(s, i) && Unserved(s, v, i)
    ensures Unserved(Next(s, a), v, i)
  {}

  lemma {:induction false} NeverServed(h: Nonce -> Key, s: State, run: seq<Step>, v: nat, i: nat)
    requires KeysAgree(h, s) && Runs(h, s, run) && Honest(run) && DistinctKeys(After(h, s, run))
    requires i < |s.controls| && !Supplied(s, i) && Unserved(s, v, i)
    ensures Unserved(After(h, s, run), v, i)
    decreases |run|
  {
    if run != [] {
      EarlierDistinct(h, s, run);
      DryStep(h, s, run[0], i);
      UnservedStep(s, run[0], v, i);
      KeysAlwaysAgree(h, s, [run[0]]);
      assert After(h, s, [run[0]]) == After(h, Next(s, run[0]), []);
      NeverServed(h, Next(s, run[0]), run[1..], v, i);
    }
  }

  /**
   A visitor can be served by the client it is at exactly when that client has a channel queued or offered, or is
   current and has one on its way or a handler that can still ask for one.
   */
  lemma {:induction false} ServableIff(h: Nonce -> Key, s: State, v: nat, i: nat)
    requires KeysAgree(h, s) && DistinctKeys(s) && i < |s.controls| && WantsFrom(s, v, i)
    ensures (exists run :: Serves(h, s, v, i, run)) <==> Supplied(s, i)
  {
    if Supplied(s, i) {
      var run := SuppliedServes(h, s, v, i);
      assert Serves(h, s, v, i, run);
    } else {
      forall run | Serves(h, s, v, i, run)
        ensures false
      {
        NeverServed(h, s, run, v, i);
      }
    }
  }

  /** A visitor that arrives while a client with a running handler is current can be served by that very client. */
  lemma {:induction false} NewcomerServed(h: Nonce -> Key, s: State, i: nat) returns (run: seq<Step>)
    requires KeysAgree(h, s) && DistinctKeys(s) && s.current == Some(i) && s.controls[i].phase == Running
    ensures run != [] && run[0] == Arrive && Serves(h, s, |s.visitors|, i, run)
  {
    var t := Next(s, Arrive);
    KeysAlwaysAgree(h, s, [Arrive]);
    assert After(h, s, [Arrive]) == After(h, t, []);
    StillDistinct(s, Arrive);
    var rest := SuppliedServes(h, t, |s.visitors|, i);
    ServesNext(h, s, |s.visitors|, i, Arrive, rest);
    run := [Arrive] + rest;
  }

  /** From the start: a client connects, is pre-warmed, and serves the first visitor. */
  lemma {:induction false} FirstVisitorServed(h: Nonce -> Key, s: State, nonce: Nonce) returns (run: seq<Step>)
    requires s == Initial
    ensures Serves(h, s, 0, 0, run)
  {
    var a := Install(nonce, h(nonce));
    var t := Next(s, a);
    var u := Next(t, Arrive);
    KeysAlwaysAgree(h, s, [a, Arrive]);
    assert [a, Arrive][1..] == [Arrive];
    assert After(h, s, [a, Arrive]) == After(h, t, [Arrive]) == After(h, u, []);
    var rest := SuppliedServes(h, u, 0, 0);
    ServesNext(h, t, 0, 0, Arrive, rest);
    ServesNext(h, s, 0, 0, a, [Arrive] + rest);
    run := [a] + ([Arrive] + rest);
  }

  /** A channel nobody asked for is as good as any, if it presents the current client's key. */
  lemma {:induction false} UninvitedServes(h: Nonce -> Key, s: State, v: nat, i: nat) returns (run: seq<Step>)
    requires DistinctKeys(s) && i < |s.controls| && s.controls[i].pool == [] && WantsFrom(s, v, i)
    requires s.current == Some(i)
    ensures run != [] && run[0] == Intrude(s.controls[i].key) && Runs(h, s, run)
    ensures v < |After(h, s, run).visitors| && After(h, s, run).visitors[v].Holding?
    ensures After(h, s, run).visitors[v].cc == i
  {
    var a := Intrude(s.controls[i].key);
    StillDistinct(s, a);
    var rest := FromKnock(h, Next(s, a), v, i, |s.conns|);
    run := [a] + rest;
    assert run[1..] == rest;
    assert After(h, s, run) == After(h, Next(s, a), rest);
  }

  /** A client whose handler leaves its loop is taken out of the slot and closed. */
  lemma {:induction false} ClientRetires(h: Nonce -> Key, s: State, i: nat) returns (run: seq<Step>)
    requires s.current == Some(i) && i < |s.controls| && s.controls[i].phase == Running
    ensures run != [] && run[0] == Exit(i) && Runs(h, s, run)
    ensures
      var t := After(h, s, run);
      t.current == None && i < |t.controls| && t.controls[i].closed && t.controls[i].phase == Gone
  {
    var t := Next(s, Exit(i));
    var u := Next(t, Leave(i));
    Then(h, u, Close(i), []);
    Then(h, t, Leave(i), [Close(i)] + []);
    Then(h, s, Exit(i), [Leave(i)] + ([Close(i)] + []));
    run := [Exit(i)] + ([Leave(i)] + ([Close(i)] + []));
  }

  /** At any moment a visitor's wait, or a channel's offer, may time out; the channel is then closed. */
  lemma WaitsMayEnd(h: Nonce -> Key, s: State, v: nat, d: nat, i: nat)
    requires KeysAgree(h, s)
    ensures v < |s.visitors| && s.visitors[v] == Waiting(i) ==> Enabled(h, s, GiveUp(v))
    ensures Offered(s, d, i) ==>
      Enabled(h, s, Unclaimed(d)) && At(Next(s, Unclaimed(d)), d, Shut) && !Offered(Next(s, Unclaimed(d)), d, i)
  {
    if v < |s.visitors| {
      assert VisitorOk(s, s.visitors[v]);
    }
    if d < |s.conns| {
      assert ConnOk(s, s.conns[d]);
    }
  }

  /** Any command may fail to be written or never be answered, and any visitor may be done, at any moment. */
  lemma AnythingMayFail(h: Nonce -> Key, s: State, i: nat, v: nat)
    requires KeysAgree(h, s)
    ensures i < |s.controls| && s.controls[i].phase == Running && s.controls[i].requests > 0 ==>
      Enabled(h, s, FailCommand(i)) && HandlerDone(Next(s, FailCommand(i)), i)
    ensures i < |s.controls| && s.controls[i].inFlight > 0 ==>
      Enabled(h, s, Forfeit(i)) && Next(s, Forfeit(i)).conns == s.conns
    ensures v < |s.visitors| && s.visitors[v].Holding? ==>
      Enabled(h, s, Release(v)) && At(Next(s, Release(v)), s.visitors[v].conn, Shut)
  {
    if v < |s.visitors| {
      assert VisitorOk(s, s.visitors[v]);
    }
  }

  lemma FinishedStep(s: State, a: Step, v: nat)
    requires Guard(s, a) && v < |s.visitors| && s.visitors[v] == Finished
    ensures v < |Next(s, a).visitors| && Next(s, a).visitors[v] == Finished
  {
    if a.Lookup? && s.controls != [] {
      LookupControls(s, a.d, 0);
    }
  }

  lemma {:induction false} StaysFinished(h: Nonce -> Key, s: State, run: seq<Step>, v: nat)
    requires Runs(h, s, run) && v < |s.visitors| && s.visitors[v] == Finished
    ensures v < |After(h, s, run).visitors| && After(h, s, run).visitors[v] == Finished
    decreases |run|
  {
    if run != [] {
      FinishedStep(s, run[0], v);
      StaysFinished(h, Next(s, run[0]), run[1..], v);
    }
  }

  /** A visitor that gave up, or is done with its channel, neither waits nor holds a channel ever after. */
  lemma {:induction false} GoneForGood(h: Nonce -> Key, s: State, a: Step, run: seq<Step>, v: nat)
    requires Enabled(h, s, a) && (a == GiveUp(v) || a == Release(v)) && Runs(h, Next(s, a), run)
    ensures v < |After(h, Next(s, a), run).visitors| && After(h, Next(s, a), run).visitors[v] == Finished
  {
    StaysFinished(h, Next(s, a), run, v);
  }

  // ------------------------------------------------------------------------
  // Capacity and order
  // ------------------------------------------------------------------------

  /** One more channel with the current client's key is queued. */
  lemma {:induction false} QueueOne(h: Nonce -> Key, s: State, i: nat) returns (run: seq<Step>)
    requires s.current == Some(i) && i < |s.controls| && |s.controls[i].pool| < 16
    ensures Runs(h, s, run)
    ensures
      var t := After(h, s, run);
      t.current == Some(i) && i < |t.controls| && |t.controls[i].pool| == |s.controls[i].pool| + 1
  {
    var a, d := Intrude(s.controls[i].key), |s.conns|;
    var t := Next(s, a);
    var u := Next(t, Lookup(d));
    LookupControls(t, d, i);
    Then(h, u, Enqueue(d), []);
    Then(h, t, Lookup(d), [Enqueue(d)] + []);
    Then(h, s, a, [Lookup(d)] + ([Enqueue(d)] + []));
    run := [a] + ([Lookup(d)] + ([Enqueue(d)] + []));
  }

  lemma {:induction false} Then(h: Nonce -> Key, s: State, a: Step, rest: seq<Step>)
    requires Enabled(h, s, a) && Runs(h, Next(s, a), rest)
    ensures Runs(h, s, [a] + rest) && After(h, s, [a] + rest) == After(h, Next(s, a), rest)
  {
    assert ([a] + rest)[1..] == rest;
  }

  /** A client's pool can be filled to sixteen channels, and takes no more until one is taken. */
  lemma {:induction false} PoolFills(h: Nonce -> Key, s: State, i: nat) returns (run: seq<Step>)
    requires s.current == Some(i) && i < |s.controls| && |s.controls[i].pool| <= 16
    ensures Runs(h, s, run)
    ensures
      var t := After(h, s, run);
      && i < |t.controls| && |t.controls[i].pool| == 16
      && forall d :: Offered(t, d, i) ==> !Guard(t, Enqueue(d))
    decreases 16 - |s.controls[i].pool|
  {
    if |s.controls[i].pool| == 16 {
      run := [];
    } else {
      var first := QueueOne(h, s, i);
      var rest := PoolFills(h, After(h, s, first), i);
      RunsOn(h, s, first, rest);
      run := first + rest;
    }
  }

  lemma {:induction false} RunsOn(h: Nonce -> Key, s: State, first: seq<Step>, second: seq<Step>)
    requires Runs(h, s, first) && Runs(h, After(h, s, first), second)
    ensures Runs(h, s, first + second) && After(h, s, first + second) == After(h, After(h, s, first), second)
    decreases |first|
  {
    if first == [] {
      assert first + second == second;
    } else {
      RunsOn(h, Next(s, first[0]), first[1..], second);
      var whole := first + second;
      assert whole[0] == first[0] && whole[1..] == first[1..] + second;
    }
  }

  /** `later` is `pool` with some of its front gone and something added behind. */
  ghost predicate Advanced(pool: seq<nat>, later: seq<nat>) {
    exists k :: 0 <= k <= |pool| && pool[k..] <= later
  }

  lemma AdvancedAgain(a: seq<nat>, b: seq<nat>, c: seq<nat>)
    requires Advanced(a, b) && Advanced(b, c)
    ensures Advanced(a, c)
  {
    var k :| 0 <= k <= |a| && a[k..] <= b;
    var m :| 0 <= m <= |b| && b[m..] <= c;
    if k + m <= |a| {
      assert a[k + m..] == a[k..][m..];
      assert a[k + m..] <= b[m..];
    } else {
      assert a[|a|..] == [];
    }
  }

  lemma PoolStep(s: State, a: Step, i: nat)
    requires Guard(s, a) && i < |s.controls|
    ensures i < |Next(s, a).controls| && Advanced(s.controls[i].pool, Next(s, a).controls[i].pool)
  {
    var pool := s.controls[i].pool;
    assert pool[0..] == pool;
    if a.Lookup? {
      LookupControls(s, a.d, i);
    } else if a.Take? && s.visitors[a.v].cc == i {
      assert pool[1..] <= Next(s, a).controls[i].pool;
    }
  }

  /** A client's channels are taken in the order in which they were queued. */
  lemma {:induction false} PoolIsAQueue(h: Nonce -> Key, s: State, run: seq<Step>, i: nat)
    requires Runs(h, s, run) && i < |s.controls|
    ensures i < |After(h, s, run).controls| && Advanced(s.controls[i].pool, After(h, s, run).controls[i].pool)
    decreases |run|
  {
    if run == [] {
      assert s.controls[i].pool[0..] == s.controls[i].pool;
    } else {
      var t := Next(s, run[0]);
      PoolStep(s, run[0], i);
      PoolIsAQueue(h, t, run[1..], i);
      AdvancedAgain(s.controls[i].pool, t.controls[i].pool, After(h, s, run).controls[i].pool);
    }
  }

  predicate HandlerDone(s: State, i: nat) {
    i < |s.controls| && (s.controls[i].phase == Retiring || s.controls[i].phase == Left || s.controls[i].phase == Gone)
  }

  lemma DoneStep(s: State, a: Step, i: nat)
    requires HandlerDone(s, i) && Guard(s, a)
    ensures HandlerDone(Next(s, a), i) && a != SendCommand(i)
  {
    if a.Lookup? {
      LookupControls(s, a.d, i);
    }
  }

  /** Once a command could not be written, or the handler has left its loop, the client is sent no other. */
  lemma {:induction false} NoCommandAfterExit(h: Nonce -> Key, s: State, a: Step, run: seq<Step>, i: nat)
    requires Enabled(h, s, a) && (a == FailCommand(i) || a == Exit(i)) && Runs(h, Next(s, a), run)
    ensures SendCommand(i) !in run
  {
    NoCommandOnceDone(h, Next(s, a), run, i);
  }

  lemma {:induction false} NoCommandOnceDone(h: Nonce -> Key, s: State, run: seq<Step>, i: nat)
    requires HandlerDone(s, i) && Runs(h, s, run)
    ensures SendCommand(i) !in run
    decreases |run|
  {
    if run != [] {
      DoneStep(s, run[0], i);
      NoCommandOnceDone(h, Next(s, run[0]), run[1..], i);
      assert run == [run[0]] + run[1..];
    }
  }
}
