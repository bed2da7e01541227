/** What every reachable state of the rathole server satisfies: keys, the slot, the place of each channel. */
module TunnelSafety {
  import opened Basics
  import opened Tunnel
  import Slot

  // ------------------------------------------------------------------------
  // Indices, capacities and keys
  // ------------------------------------------------------------------------

  predicate ConnHasKey(s: State, d: nat, key: Key) {
    d < |s.conns| && s.conns[d].key == key
  }

  predicate ControlHasKey(s: State, i: nat, key: Key) {
    i < |s.controls| && s.controls[i].key == key
  }

  predicate ControlOk(h: Nonce -> Key, s: State, c: Control) {
    && c.key == h(c.nonce)
    && c.requests <= REQUESTS
    && |c.pool| <= POOL
    && (c.phase.Warming? ==> c.phase.sent < WARM)
    && (forall k :: 0 <= k < |c.pool| ==> ConnHasKey(s, c.pool[k], c.key))
  }

  predicate ConnOk(s: State, c: Conn) {
    && (c.router.Offering? ==> ControlHasKey(s, c.router.cc, c.key))
    && (c.origin.Some? ==> ControlHasKey(s, c.origin.value, c.key))
  }

  predicate VisitorOk(s: State, x: Visitor) {
    && (!x.Finished? ==> x.cc < |s.controls|)
    && (x.Holding? ==> ConnHasKey(s, x.conn, s.controls[x.cc].key))
  }

  /** A channel queued on, offered to or taken from a client presented that client's own key. */
  predicate KeysAgree(h: Nonce -> Key, s: State) {
    && (s.current.Some? ==> s.current.value < |s.controls|)
    && (forall i :: 0 <= i < |s.controls| ==> ControlOk(h, s, s.controls[i]))
    && (forall d :: 0 <= d < |s.conns| ==> ConnOk(s, s.conns[d]))
    && (forall v :: 0 <= v < |s.visitors| ==> VisitorOk(s, s.visitors[v]))
  }

  /** Clients and channels are only added, and their keys never change. */
  predicate Grows(s: State, t: State) {
    && |s.controls| <= |t.controls|
    && |s.conns| <= |t.conns|
    && (forall i :: 0 <= i < |s.controls| ==> t.controls[i].key == s.controls[i].key)
    && (forall d :: 0 <= d < |s.conns| ==> t.conns[d].key == s.conns[d].key)
  }

  lemma GrowsLookup(s: State, d: nat)
    requires Guard(s, Lookup(d))
    ensures Grows(s, Next(s, Lookup(d)))
  {}

  lemma GrowsStep(s: State, a: Step)
    requires Guard(s, a)
    ensures Grows(s, Next(s, a))
  {
    if a.Lookup? {
      GrowsLookup(s, a.d);
    }
  }

  lemma StillOk(h: Nonce -> Key, s: State, t: State)
    requires KeysAgree(h, s) && Grows(s, t)
    ensures forall i :: 0 <= i < |s.controls| ==> ControlOk(h, t, s.controls[i])
    ensures forall d :: 0 <= d < |s.conns| ==> ConnOk(t, s.conns[d])
    ensures forall v :: 0 <= v < |s.visitors| ==> VisitorOk(t, s.visitors[v])
  {}

  predicate HandlerStep(a: Step) {
    a.Install? || a.Warm? || a.SendCommand? || a.FailCommand? || a.Exit? || a.Leave? || a.Close? || a.Forfeit?
  }

  predicate ChannelStep(a: Step) {
    a.Answer? || a.Intrude? || a.Lookup? || a.Enqueue? || a.Unclaimed?
  }

  lemma KeysHandlerStep(h: Nonce -> Key, s: State, a: Step)
    requires KeysAgree(h, s) && Enabled(h, s, a) && HandlerStep(a)
    ensures KeysAgree(h, Next(s, a))
  {
    GrowsStep(s, a);
    StillOk(h, s, Next(s, a));
  }

  lemma KeysLookup(h: Nonce -> Key, s: State, d: nat)
    requires KeysAgree(h, s) && Guard(s, Lookup(d))
    ensures KeysAgree(h, Next(s, Lookup(d)))
  {
    GrowsStep(s, Lookup(d));
    StillOk(h, s, Next(s, Lookup(d)));
  }

  lemma KeysChannelStep(h: Nonce -> Key, s: State, a: Step)
    requires KeysAgree(h, s) && Enabled(h, s, a) && ChannelStep(a) && !a.Lookup?
    ensures KeysAgree(h, Next(s, a))
  {
    GrowsStep(s, a);
    StillOk(h, s, Next(s, a));
  }

  lemma KeysVisitorStep(h: Nonce -> Key, s: State, a: Step)
    requires KeysAgree(h, s) && Enabled(h, s, a) && !HandlerStep(a) && !ChannelStep(a)
    ensures KeysAgree(h, Next(s, a))
  {
    GrowsStep(s, a);
    StillOk(h, s, Next(s, a));
  }

  lemma {:induction false} KeysAlwaysAgree(h: Nonce -> Key, s: State, run: seq<Step>)
    requires KeysAgree(h, s) && Runs(h, s, run)
    ensures KeysAgree(h, After(h, s, run))
    decreases |run|
  {
    if run != [] {
      var a := run[0];
      if HandlerStep(a) {
        KeysHandlerStep(h, s, a);
      } else if a.Lookup? {
        KeysLookup(h, s, a.d);
      } else if ChannelStep(a) {
        KeysChannelStep(h, s, a);
      } else {
        KeysVisitorStep(h, s, a);
      }
      KeysAlwaysAgree(h, Next(s, a), run[1..]);
    }
  }

  /** No two accepted handshakes drew the same nonce. */
  predicate FreshNonces(s: State) {
    forall i, j :: 0 <= i < j < |s.controls| ==> s.controls[i].nonce != s.controls[j].nonce
  }

  /** The digest gives distinct keys to distinct nonces among those drawn. */
  predicate CollisionFree(h: Nonce -> Key, s: State) {
    forall i, j :: 0 <= i < |s.controls| && 0 <= j < |s.controls| && s.controls[i].nonce != s.controls[j].nonce ==>
      h(s.controls[i].nonce) != h(s.controls[j].nonce)
  }

  /**
   A data channel opened for one client never reaches a visitor that waits on another,
   before or after the first client is displaced.
   */
  lemma {:induction false} NoCrossDelivery(h: Nonce -> Key, run: seq<Step>, v: nat)
    requires Runs(h, Initial, run)
    requires FreshNonces(After(h, Initial, run)) && CollisionFree(h, After(h, Initial, run))
    requires v < |After(h, Initial, run).visitors| && After(h, Initial, run).visitors[v].Holding?
    ensures
      var s := After(h, Initial, run);
      var x := s.visitors[v];
      x.conn < |s.conns| && (s.conns[x.conn].origin.Some? ==> s.conns[x.conn].origin.value == x.cc)
  {
    KeysAlwaysAgree(h, Initial, run);
    var s := After(h, Initial, run);
    assert VisitorOk(s, s.visitors[v]);
    assert ConnOk(s, s.conns[s.visitors[v].conn]);
  }

  // ------------------------------------------------------------------------
  // Places
  // ------------------------------------------------------------------------

  datatype Place = Routed | Queued(cc: nat, pos: nat) | HeldBy(visitor: nat) | Shut

  /** Channel `d` is found at place `p`. */
  predicate At(s: State, d: nat, p: Place) {
    match p
    case Routed => d < |s.conns| && s.conns[d].router != Returned
    case Queued(i, k) => i < |s.controls| && k < |s.controls[i].pool| && s.controls[i].pool[k] == d
    case HeldBy(v) => v < |s.visitors| && s.visitors[v].Holding? && s.visitors[v].conn == d
    case Shut => d < |s.conns| && s.conns[d].closed
  }

  ghost predicate OnePlace(s: State, d: nat) {
    && (exists p :: At(s, d, p))
    && (forall p, q :: At(s, d, p) && At(s, d, q) ==> p == q)
  }

  /** Every channel is in exactly one place, and nothing else is anywhere. */
  ghost predicate OnePlaceEach(s: State) {
    && (forall d :: 0 <= d < |s.conns| ==> OnePlace(s, d))
    && (forall d: nat, p :: At(s, d, p) ==> d < |s.conns|)
  }

  lemma Unmoved(s: State, t: State, d: nat)
    requires OnePlace(s, d) && forall p :: At(t, d, p) <==> At(s, d, p)
    ensures OnePlace(t, d)
  {
    var p :| At(s, d, p);
    assert At(t, d, p);
  }

  /** Nothing moved but `d`, which went from `from` (or from nowhere) to `to`. */
  lemma OneMoved(s: State, t: State, d: nat, from: Place, to: Place)
    requires OnePlaceEach(s)
    requires if d < |s.conns| then At(s, d, from) && |t.conns| == |s.conns| else d == |s.conns| && |t.conns| == d + 1
    requires forall e: nat, p :: e != d ==> (At(t, e, p) <==> At(s, e, p))
    requires At(t, d, to) && forall p :: At(t, d, p) ==> p == to || (p != from && At(s, d, p))
    ensures OnePlaceEach(t)
  {
    forall e | 0 <= e < |t.conns|
      ensures OnePlace(t, e)
    {
      if e != d {
        Unmoved(s, t, e);
      } else if d < |s.conns| {
        assert OnePlace(s, d);
      }
    }
  }

  lemma PlacesQuietStep(s: State, a: Step)
    requires OnePlaceEach(s) && Guard(s, a) && (HandlerStep(a) || a.Arrive? || a.Post? || a.GiveUp?)
    ensures OnePlaceEach(Next(s, a))
  {
    var t := Next(s, a);
    forall d: nat, p
      ensures At(t, d, p) <==> At(s, d, p)
    {}
    forall d | 0 <= d < |t.conns|
      ensures OnePlace(t, d)
    {
      Unmoved(s, t, d);
    }
  }

  lemma PlacesOpen(s: State, a: Step)
    requires OnePlaceEach(s) && Guard(s, a) && (a.Answer? || a.Intrude?)
    ensures OnePlaceEach(Next(s, a))
  {
    OneMoved(s, Next(s, a), |s.conns|, Routed, Routed);
  }

  lemma PlacesLookup(s: State, d: nat)
    requires OnePlaceEach(s) && Guard(s, Lookup(d))
    ensures OnePlaceEach(Next(s, Lookup(d)))
  {
    var t := Next(s, Lookup(d));
    assert At(s, d, Routed) && OnePlace(s, d);
    OneMoved(s, t, d, Routed, if t.conns[d].router == Returned then Shut else Routed);
  }

  lemma PlacesRoute(s: State, a: Step)
    requires OnePlaceEach(s) && Guard(s, a) && (a.Enqueue? || a.Unclaimed?)
    ensures OnePlaceEach(Next(s, a))
  {
    var i := s.conns[a.d].router.cc;
    assert At(s, a.d, Routed);
    OneMoved(s, Next(s, a), a.d, Routed, if a.Enqueue? then Queued(i, |s.controls[i].pool|) else Shut);
  }

  lemma PlacesRelease(s: State, v: nat)
    requires OnePlaceEach(s) && Guard(s, Release(v))
    ensures OnePlaceEach(Next(s, Release(v)))
  {
    assert At(s, s.visitors[v].conn, HeldBy(v));
    OneMoved(s, Next(s, Release(v)), s.visitors[v].conn, HeldBy(v), Shut);
  }

  /** Where a channel now at `p` was before the head of client `i`'s pool was taken. */
  function Behind(i: nat, p: Place): Place {
    if p.Queued? && p.cc == i then Queued(i, p.pos + 1) else p
  }

  lemma TakeShifts(s: State, v: nat, e: nat, p: Place)
    requires Guard(s, Take(v)) && s.controls[s.visitors[v].cc].pool[0] != e
    ensures At(Next(s, Take(v)), e, p) <==> At(s, e, Behind(s.visitors[v].cc, p))
  {}

  lemma PlacesTakeOther(s: State, v: nat, e: nat)
    requires OnePlace(s, e) && Guard(s, Take(v)) && s.controls[s.visitors[v].cc].pool[0] != e
    ensures OnePlace(Next(s, Take(v)), e)
  {
    var t, i := Next(s, Take(v)), s.visitors[v].cc;
    var p :| At(s, e, p);
    TakeShifts(s, v, e, if p.Queued? && p.cc == i then Queued(i, p.pos - 1) else p);
    forall p, q | At(t, e, p) && At(t, e, q)
      ensures p == q
    {
      TakeShifts(s, v, e, p);
      TakeShifts(s, v, e, q);
    }
  }

  /** The head of a pool goes to the visitor; the rest of that pool moves up by one. */
  lemma PlacesTake(s: State, v: nat)
    requires OnePlaceEach(s) && Guard(s, Take(v))
    ensures OnePlaceEach(Next(s, Take(v)))
  {
    var t, i := Next(s, Take(v)), s.visitors[v].cc;
    var d := s.controls[i].pool[0];
    assert At(s, d, Queued(i, 0)) && OnePlace(s, d);
    assert At(t, d, HeldBy(v));
    forall p | At(t, d, p)
      ensures p == HeldBy(v)
    {
      assert p == HeldBy(v) || At(s, d, Behind(i, p));
    }
    forall e | 0 <= e < |t.conns| && e != d
      ensures OnePlace(t, e)
    {
      PlacesTakeOther(s, v, e);
    }
    forall e: nat, p | At(t, e, p) && e != d
      ensures e < |t.conns|
    {
      TakeShifts(s, v, e, p);
    }
  }

  /** In every reachable state each data channel is in exactly one place, so it never serves two visitors. */
  lemma {:induction false} AlwaysOnePlaceEach(h: Nonce -> Key, s: State, run: seq<Step>)
    requires OnePlaceEach(s) && Runs(h, s, run)
    ensures OnePlaceEach(After(h, s, run))
    decreases |run|
  {
    if run != [] {
      var a := run[0];
      if a.Answer? || a.Intrude? {
        PlacesOpen(s, a);
      } else if a.Lookup? {
        PlacesLookup(s, a.d);
      } else if a.Enqueue? || a.Unclaimed? {
        PlacesRoute(s, a);
      } else if a.Take? {
        PlacesTake(s, a.v);
      } else if a.Release? {
        PlacesRelease(s, a.v);
      } else {
        PlacesQuietStep(s, a);
      }
      AlwaysOnePlaceEach(h, Next(s, a), run[1..]);
    }
  }

  /** Once visitor `v` has taken `d`, it is with `v` or closed. */
  predicate Served(s: State, d: nat, v: nat) {
    At(s, d, HeldBy(v)) || At(s, d, Shut)
  }

  lemma ServedStep(s: State, a: Step, d: nat, v: nat)
    requires OnePlaceEach(s) && Guard(s, a) && Served(s, d, v)
    ensures Served(Next(s, a), d, v)
  {
    assert d < |s.conns| && OnePlace(s, d);
    if a.Take? {
      var i := s.visitors[a.v].cc;
      assert At(s, s.controls[i].pool[0], Queued(i, 0));
    } else if a.Lookup? || a.Enqueue? || a.Unclaimed? {
      assert At(s, a.d, Routed);
    }
  }

  /** Over a whole run, displacements included, no data channel serves two visitors. */
  lemma {:induction false} ServesOneVisitor(h: Nonce -> Key, s: State, run: seq<Step>, d: nat, v: nat, w: nat)
    requires OnePlaceEach(s) && Runs(h, s, run) && Served(s, d, v)
    ensures At(After(h, s, run), d, HeldBy(w)) ==> w == v
    decreases |run|
  {
    if run == [] {
      assert d < |s.conns| && OnePlace(s, d);
    } else {
      ServedStep(s, run[0], d, v);
      AlwaysOnePlaceEach(h, s, [run[0]]);
      assert After(h, s, [run[0]]) == After(h, Next(s, run[0]), []);
      ServesOneVisitor(h, Next(s, run[0]), run[1..], d, v, w);
    }
  }

  // ------------------------------------------------------------------------
  // The slot: a refinement of Slot
  // ------------------------------------------------------------------------

  function PhaseView(p: Phase): Slot.Phase {
    match p
    case Warming(_) => Slot.Serving
    case Running => Slot.Serving
    case Retiring => Slot.Retiring
    case Left => Slot.Left
    case Gone => Slot.Gone
  }

  function SlotView(s: State): Slot.State {
    Slot.State(s.current,
               seq(|s.controls|, i requires 0 <= i < |s.controls| =>
                 Slot.Handler(PhaseView(s.controls[i].phase), s.controls[i].closed)))
  }

  /** The slot steps that a server step amounts to: one, or none. */
  function SlotSteps(a: Step): seq<Slot.Step> {
    match a
    case Install(_, _) => [Slot.Install]
    case FailCommand(i) => [Slot.Exit(i)]
    case Exit(i) => [Slot.Exit(i)]
    case Leave(i) => [Slot.Leave(i)]
    case Close(i) => [Slot.Close(i)]
    case _ => []
  }

  lemma SlotViewQuiet(s: State, a: Step)
    requires Guard(s, a) && SlotSteps(a) == []
    ensures SlotView(Next(s, a)) == SlotView(s)
  {}

  lemma SlotViewMove(s: State, a: Step)
    requires Guard(s, a) && SlotSteps(a) != []
    ensures Slot.Enabled(SlotView(s), SlotSteps(a)[0])
    ensures SlotView(Next(s, a)) == Slot.Next(SlotView(s), SlotSteps(a)[0])
  {}

  lemma SlotViewStep(s: State, a: Step)
    requires Guard(s, a)
    ensures Slot.Runs(SlotView(s), SlotSteps(a))
    ensures SlotView(Next(s, a)) == Slot.After(SlotView(s), SlotSteps(a))
  {
    var v, steps := SlotView(s), SlotSteps(a);
    if steps == [] {
      SlotViewQuiet(s, a);
    } else {
      SlotViewMove(s, a);
      assert Slot.After(v, steps) == Slot.After(Slot.Next(v, steps[0]), []);
    }
  }

  /** Every run of the server is a run of the slot, so the slot's guarantees hold of it. */
  lemma {:induction false} TunnelSlotSound(h: Nonce -> Key, s: State, run: seq<Step>)
    requires Slot.Inv(SlotView(s)) && Runs(h, s, run)
    ensures Slot.Inv(SlotView(After(h, s, run)))
    decreases |run|
  {
    if run != [] {
      SlotViewStep(s, run[0]);
      Slot.SlotAlwaysSound(SlotView(s), SlotSteps(run[0]));
      TunnelSlotSound(h, Next(s, run[0]), run[1..]);
    }
  }
}
