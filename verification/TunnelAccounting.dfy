/** Where the data channels a client was asked for have gone, and what pre-warming can block. */
module TunnelAccounting {
  import opened Basics
  import opened Tunnel
  import opened TunnelSafety
  import Slot

  /** The channel is on its way to client `i`'s pool: opened for it, or already matched to it. */
  function RoutedTo(i: nat): Conn -> bool {
    (c: Conn) => c.router == Offering(i) || (c.router == Presented && c.origin == Some(i))
  }

  function WaitsOn(i: nat): Visitor -> bool {
    (x: Visitor) => x == Waiting(i)
  }

  function Warmed(p: Phase): nat {
    if p.Warming? then p.sent else WARM
  }

  /** Requests queued, commands in flight, channels being routed and channels queued for client `i`. */
  function Supply(s: State, i: nat): nat
    requires i < |s.controls|
  {
    s.controls[i].requests + s.controls[i].inFlight + Count(s.conns, RoutedTo(i)) + |s.controls[i].pool|
  }

  function Demand(s: State, i: nat): nat {
    Count(s.visitors, WaitsOn(i))
  }

  predicate Balanced(s: State, i: nat)
    requires i < |s.controls|
  {
    var c := s.controls[i];
    Supply(s, i) - Demand(s, i) == Warmed(c.phase) - c.dropped - c.failed + c.gaveUp + c.uninvited
  }

  predicate AllBalanced(s: State) {
    forall i :: 0 <= i < |s.controls| ==> Balanced(s, i)
  }

  lemma BalanceInstall(h: Nonce -> Key, s: State, a: Step)
    requires KeysAgree(h, s) && AllBalanced(s) && Enabled(h, s, a) && a.Install?
    ensures AllBalanced(Next(s, a))
  {
    var t := Next(s, a);
    forall i | 0 <= i < |t.controls|
      ensures Balanced(t, i)
    {
      if i == |s.controls| {
        NothingForNewcomer(h, s, i);
      } else {
        assert Balanced(s, i);
      }
    }
  }

  lemma BalanceCommand(h: Nonce -> Key, s: State, a: Step, i: nat)
    requires KeysAgree(h, s) && Guard(s, a) && (a.Warm? || a.SendCommand? || a.FailCommand? || a.Forfeit?)
    requires i < |s.controls| && Balanced(s, i)
    ensures Balanced(Next(s, a), i)
  {}

  lemma BalanceExit(s: State, a: Step, i: nat)
    requires Guard(s, a) && (a.Exit? || a.Leave? || a.Close?)
    requires i < |s.controls| && Balanced(s, i)
    ensures Balanced(Next(s, a), i)
  {}

  lemma BalanceHandlerStep(h: Nonce -> Key, s: State, a: Step)
    requires KeysAgree(h, s) && AllBalanced(s) && Enabled(h, s, a) && HandlerStep(a)
    ensures AllBalanced(Next(s, a))
  {
    if a.Install? {
      BalanceInstall(h, s, a);
    } else {
      forall i | 0 <= i < |Next(s, a).controls|
        ensures Balanced(Next(s, a), i)
      {
        assert Balanced(s, i);
        if a.Exit? || a.Leave? || a.Close? {
          BalanceExit(s, a, i);
        } else {
          BalanceCommand(h, s, a, i);
        }
      }
    }
  }

  /** No channel is routed to, and no visitor waits on, a client that has not been installed. */
  lemma NothingForNewcomer(h: Nonce -> Key, s: State, i: nat)
    requires KeysAgree(h, s) && i >= |s.controls|
    ensures Count(s.conns, RoutedTo(i)) == 0 && Demand(s, i) == 0
  {
    NoneCounted(s.conns, RoutedTo(i));
    NoneCounted(s.visitors, WaitsOn(i));
  }

  lemma {:induction false} NoneCounted<T>(s: seq<T>, p: T -> bool)
    requires forall k :: 0 <= k < |s| ==> !p(s[k])
    ensures Count(s, p) == 0
  {
    if s != [] {
      NoneCounted(s[1..], p);
    }
  }

  /** A lookup changes the books of the client it fails and of the client it admits to, and nothing else in them. */
  lemma LookupControls(s: State, d: nat, i: nat)
    requires Guard(s, Lookup(d)) && i < |s.controls|
    ensures
      var t, o := Next(s, Lookup(d)), s.conns[d].origin;
      var to := t.conns[d].router;
      && |t.controls| == |s.controls| && t.visitors == s.visitors && t.conns == s.conns[d := t.conns[d]]
      && t.controls[i] == s.controls[i].(
           failed := s.controls[i].failed + if o == Some(i) && to != Offering(i) then 1 else 0,
           uninvited := s.controls[i].uninvited + if o != Some(i) && to == Offering(i) then 1 else 0)
  {}

  lemma BalanceLookup(s: State, d: nat, i: nat)
    requires Guard(s, Lookup(d)) && i < |s.controls| && Balanced(s, i)
    ensures Balanced(Next(s, Lookup(d)), i)
  {
    LookupControls(s, d, i);
    CountUpdate(s.conns, d, Next(s, Lookup(d)).conns[d], RoutedTo(i));
  }

  lemma BalanceOpen(s: State, a: Step, i: nat)
    requires Guard(s, a) && (a.Answer? || a.Intrude?) && i < |s.controls| && Balanced(s, i)
    ensures Balanced(Next(s, a), i)
  {
    CountAppend(s.conns, Next(s, a).conns[|s.conns|], RoutedTo(i));
  }

  lemma BalanceRoute(s: State, a: Step, i: nat)
    requires Guard(s, a) && (a.Enqueue? || a.Unclaimed?) && i < |s.controls| && Balanced(s, i)
    ensures Balanced(Next(s, a), i)
  {
    CountUpdate(s.conns, a.d, Next(s, a).conns[a.d], RoutedTo(i));
  }

  lemma BalanceChannelStep(h: Nonce -> Key, s: State, a: Step)
    requires KeysAgree(h, s) && AllBalanced(s) && Enabled(h, s, a) && ChannelStep(a)
    ensures AllBalanced(Next(s, a))
  {
    forall i | 0 <= i < |Next(s, a).controls|
      ensures Balanced(Next(s, a), i)
    {
      assert i < |s.controls| && Balanced(s, i);
      if a.Lookup? {
        BalanceLookup(s, a.d, i);
      } else if a.Enqueue? || a.Unclaimed? {
        BalanceRoute(s, a, i);
      } else {
        BalanceOpen(s, a, i);
      }
    }
  }

  lemma BalanceVisitorStep(h: Nonce -> Key, s: State, a: Step)
    requires KeysAgree(h, s) && AllBalanced(s) && Enabled(h, s, a) && !HandlerStep(a) && !ChannelStep(a)
    ensures AllBalanced(Next(s, a))
  {
    var t := Next(s, a);
    forall i | 0 <= i < |t.controls|
      ensures Balanced(t, i)
    {
      assert Balanced(s, i);
      if a.Arrive? {
        CountAppend(s.visitors, t.visitors[|s.visitors|], WaitsOn(i));
      } else {
        CountUpdate(s.visitors, a.v, t.visitors[a.v], WaitsOn(i));
      }
      if a.Release? {
        var d := s.visitors[a.v].conn;
        CountUpdate(s.conns, d, t.conns[d], RoutedTo(i));
      }
    }
  }

  lemma {:induction false} AlwaysBalanced(h: Nonce -> Key, s: State, run: seq<Step>)
    requires KeysAgree(h, s) && AllBalanced(s) && Runs(h, s, run)
    ensures AllBalanced(After(h, s, run))
    decreases |run|
  {
    if run != [] {
      var a := run[0];
      if HandlerStep(a) {
        BalanceHandlerStep(h, s, a);
      } else if ChannelStep(a) {
        BalanceChannelStep(h, s, a);
      } else {
        BalanceVisitorStep(h, s, a);
      }
      KeysAlwaysAgree(h, s, [a]);
      assert After(h, s, [a]) == After(h, Next(s, a), []);
      AlwaysBalanced(h, Next(s, a), run[1..]);
    }
  }

  /** Keys, places, the slot and the books, in every state that any interleaving can reach. */
  lemma {:induction false} EveryReachableState(h: Nonce -> Key, run: seq<Step>)
    requires Runs(h, Initial, run)
    ensures
      var s := After(h, Initial, run);
      KeysAgree(h, s) && OnePlaceEach(s) && Slot.Inv(SlotView(s)) && AllBalanced(s)
  {
    KeysAlwaysAgree(h, Initial, run);
    AlwaysOnePlaceEach(h, Initial, run);
    TunnelSlotSound(h, Initial, run);
    AlwaysBalanced(h, Initial, run);
  }

  // ------------------------------------------------------------------------
  // Honest clients
  // ------------------------------------------------------------------------

  predicate Honest(run: seq<Step>) {
    forall k :: 0 <= k < |run| ==> !run[k].Intrude?
  }

  predicate DistinctKeys(s: State) {
    forall i, j :: 0 <= i < j < |s.controls| ==> s.controls[i].key != s.controls[j].key
  }

  predicate AllInvited(s: State) {
    && (forall d :: 0 <= d < |s.conns| ==> s.conns[d].origin.Some?)
    && (forall i :: 0 <= i < |s.controls| ==> s.controls[i].uninvited == 0)
  }

  lemma InvitedLookup(s: State, d: nat)
    requires AllInvited(s) && DistinctKeys(s) && Guard(s, Lookup(d)) && ConnOk(s, s.conns[d])
    ensures AllInvited(Next(s, Lookup(d)))
  {}

  lemma InvitedStep(h: Nonce -> Key, s: State, a: Step)
    requires KeysAgree(h, s) && AllInvited(s) && DistinctKeys(s) && Enabled(h, s, a) && !a.Intrude?
    ensures AllInvited(Next(s, a))
  {
    if a.Lookup? {
      InvitedLookup(s, a.d);
    }
  }

  lemma {:induction false} EarlierDistinct(h: Nonce -> Key, s: State, run: seq<Step>)
    requires Runs(h, s, run) && DistinctKeys(After(h, s, run))
    ensures DistinctKeys(s)
    decreases |run|
  {
    if run != [] {
      EarlierDistinct(h, Next(s, run[0]), run[1..]);
      GrowsStep(s, run[0]);
    }
  }

  lemma {:induction false} HonestInvited(h: Nonce -> Key, s: State, run: seq<Step>)
    requires KeysAgree(h, s) && AllInvited(s) && Runs(h, s, run) && Honest(run) && DistinctKeys(After(h, s, run))
    ensures AllInvited(After(h, s, run))
    decreases |run|
  {
    if run != [] {
      EarlierDistinct(h, s, run);
      InvitedStep(h, s, run[0]);
      KeysAlwaysAgree(h, s, [run[0]]);
      assert After(h, s, [run[0]]) == After(h, Next(s, run[0]), []);
      HonestInvited(h, Next(s, run[0]), run[1..]);
    }
  }

  /**
   The supply of channels exceeds the visitors waiting for them by the two pre-warmed ones,
   corrected for every request dropped, channel lost and visitor gone.
   */
  lemma {:induction false} ChannelsAccountedFor(h: Nonce -> Key, run: seq<Step>, i: nat)
    requires Runs(h, Initial, run) && Honest(run)
    requires i < |After(h, Initial, run).controls|
    requires FreshNonces(After(h, Initial, run)) && CollisionFree(h, After(h, Initial, run))
    requires !After(h, Initial, run).controls[i].phase.Warming?
    ensures
      var s := After(h, Initial, run);
      var c := s.controls[i];
      Supply(s, i) - Demand(s, i) == 2 - c.dropped - c.failed + c.gaveUp
  {
    var s := After(h, Initial, run);
    KeysAlwaysAgree(h, Initial, run);
    AlwaysBalanced(h, Initial, run);
    assert Balanced(s, i);
    assert DistinctKeys(s) by {
      forall j, k | 0 <= j < k < |s.controls|
        ensures s.controls[j].key != s.controls[k].key
      {
        assert ControlOk(h, s, s.controls[j]) && ControlOk(h, s, s.controls[k]);
      }
    }
    HonestInvited(h, Initial, run);
  }

  // ------------------------------------------------------------------------
  // Pre-warming: the sends block, and nothing drains the queue until they are done
  // ------------------------------------------------------------------------

  /** The queue has room for the pre-warm sends that client `i`'s handler still has to make. */
  predicate RoomToWarm(s: State, i: nat) {
    && i < |s.controls|
    && s.controls[i].phase.Warming?
    && s.controls[i].requests + WARM - s.controls[i].phase.sent <= REQUESTS
  }

  predicate Crowded(s: State, i: nat) {
    i < |s.controls| && s.controls[i].phase.Warming? && s.controls[i].phase.sent < WARM && !RoomToWarm(s, i)
  }

  lemma CrowdedStep(s: State, a: Step, i: nat)
    requires Crowded(s, i) && Guard(s, a)
    ensures Crowded(Next(s, a), i)
  {}

  lemma {:induction false} CrowdedForever(h: Nonce -> Key, s: State, run: seq<Step>, i: nat)
    requires Crowded(s, i) && Runs(h, s, run)
    ensures Crowded(After(h, s, run), i)
    decreases |run|
  {
    if run != [] {
      CrowdedStep(s, run[0], i);
      CrowdedForever(h, Next(s, run[0]), run[1..], i);
    }
  }

  lemma WarmsInRoom(h: Nonce -> Key, s: State, i: nat) returns (run: seq<Step>)
    requires RoomToWarm(s, i) && s.controls[i].phase.sent < WARM
    ensures Runs(h, s, run) && i < |After(h, s, run).controls| && After(h, s, run).controls[i].phase == Running
    decreases WARM - s.controls[i].phase.sent
  {
    var t := Next(s, Warm(i));
    if t.controls[i].phase == Running {
      run := [Warm(i)];
      assert After(h, s, run) == After(h, t, []);
    } else {
      var rest := WarmsInRoom(h, t, i);
      run := [Warm(i)] + rest;
    }
  }

  ghost predicate StartsServing(h: Nonce -> Key, s: State, i: nat, run: seq<Step>) {
    Runs(h, s, run) && i < |After(h, s, run).controls| && After(h, s, run).controls[i].phase == Running
  }

  /** A handler still pre-warming can ever serve its client exactly when the queue has room for the rest. */
  lemma ServesIffRoom(h: Nonce -> Key, s: State, i: nat)
    requires i < |s.controls| && s.controls[i].phase.Warming? && s.controls[i].phase.sent < WARM
    ensures (exists run :: StartsServing(h, s, i, run)) <==> RoomToWarm(s, i)
  {
    if RoomToWarm(s, i) {
      var run := WarmsInRoom(h, s, i);
      assert StartsServing(h, s, i, run);
    } else {
      forall run | StartsServing(h, s, i, run)
        ensures false
      {
        CrowdedForever(h, s, run, i);
      }
    }
  }

  /** Visitors that arrive before the first pre-warm send can fill the queue. */
  lemma Crowd(h: Nonce -> Key, s: State, n: nat) returns (run: seq<Step>)
    requires s.current == Some(0) && |s.controls| == 1 && s.controls[0].phase == Warming(0)
    requires s.controls[0].requests + n <= REQUESTS
    ensures Runs(h, s, run)
    ensures
      var t := After(h, s, run);
      && t.current == Some(0) && |t.controls| == 1
      && t.controls[0].phase == Warming(0) && t.controls[0].requests == s.controls[0].requests + n
    decreases n
  {
    if n == 0 {
      run := [];
    } else {
      var arrived := Next(s, Arrive);
      var posted := Next(arrived, Post(|s.visitors|));
      var rest := Crowd(h, posted, n - 1);
      assert ([Post(|s.visitors|)] + rest)[1..] == rest;
      assert After(h, arrived, [Post(|s.visitors|)] + rest) == After(h, posted, rest);
      run := [Arrive] + ([Post(|s.visitors|)] + rest);
      assert run[1..] == [Post(|s.visitors|)] + rest;
    }
  }

  /** A run after which the first client is connected and can never be served. */
  lemma PrewarmCanBlockForever(h: Nonce -> Key, nonce: Nonce) returns (run: seq<Step>)
    ensures Runs(h, Initial, run)
    ensures
      var s := After(h, Initial, run);
      && s.current == Some(0) && s.controls != [] && s.controls[0].requests == 64
      && forall more :: !StartsServing(h, s, 0, more)
  {
    var installed := Next(Initial, Install(nonce, h(nonce)));
    var rest := Crowd(h, installed, REQUESTS);
    run := [Install(nonce, h(nonce))] + rest;
    assert run[1..] == rest;
    ServesIffRoom(h, After(h, Initial, run), 0);
  }
}
