/**
 One rathole UDP data channel end to end: runUDPServer on one side, runUDPClient with one
 reply pump per visitor source on the other, and a byte stream in each direction.  The pumps
 share the stream back to the server under a lock and write each frame in pieces.
 */
module UdpMux {
  import opened Basics
  import opened UdpFrame

  // ------------------------------------------------------------------------
  // One direction of the data channel
  // ------------------------------------------------------------------------

  /**
   `sent` lists the frames whose writing has begun, `bytes` what has been written and `rest`
   what is still to be written of the last frame; the reader has taken `count` frames,
   `read` bytes.
   */
  datatype Wire = Wire(sent: seq<Datagram>, bytes: Bytes, rest: Bytes, count: nat, read: nat)

  const EmptyWire := Wire([], [], [], 0, 0)

  function Begin(w: Wire, d: Datagram): Wire {
    w.(sent := w.sent + [d], rest := Encode(d))
  }

  function Push(w: Wire, n: nat): Wire
    requires n <= |w.rest|
  {
    w.(bytes := w.bytes + w.rest[..n], rest := w.rest[n..])
  }

  function Arrived(w: Wire): Option<(Datagram, nat)> {
    if w.read <= |w.bytes| then Decode(w.bytes[w.read..]) else None
  }

  function Skip(w: Wire, n: nat): Wire {
    w.(count := w.count + 1, read := w.read + n)
  }

  function Pull(w: Wire): Wire
    requires Arrived(w).Some?
  {
    Skip(w, Arrived(w).value.1)
  }

  /** Whole frames in the order their writing began, then at most one partial frame: the last. */
  predicate WireOk(w: Wire) {
    && AllFit(w.sent)
    && w.bytes + w.rest == EncodeAll(w.sent)
    && (w.rest != [] ==> w.sent != [] && |w.rest| <= |Encode(w.sent[|w.sent| - 1])|)
    && w.count <= |w.sent|
    && w.read == |EncodeAll(w.sent[..w.count])| <= |w.bytes|
  }

  lemma {:induction false} BeginOk(w: Wire, d: Datagram)
    requires WireOk(w) && w.rest == [] && Fits(d)
    ensures WireOk(Begin(w, d))
  {
    EncodeAllConcat(w.sent, [d]);
    assert EncodeAll([d]) == Encode(d) + EncodeAll([]);
    assert (w.sent + [d])[..w.count] == w.sent[..w.count];
  }

  lemma {:induction false} PushOk(w: Wire, n: nat)
    requires WireOk(w) && n <= |w.rest|
    ensures WireOk(Push(w, n)) && |Push(w, n).bytes| == |w.bytes| + n && |Push(w, n).rest| == |w.rest| - n
  {
    assert w.rest == w.rest[..n] + w.rest[n..];
    Regroup(w.bytes, w.rest[..n], w.rest[n..]);
  }

  lemma {:induction false} PullOk(w: Wire)
    requires WireOk(w) && Arrived(w).Some?
    ensures w.count < |w.sent| && Arrived(w).value.0 == w.sent[w.count]
    ensures WireOk(Pull(w))
  {
    ReadNext(w.sent, w.bytes, w.rest, w.count);
  }

  /** The frames written in full. */
  function Whole(w: Wire): seq<Datagram> {
    if w.rest == [] || w.sent == [] then w.sent else w.sent[..|w.sent| - 1]
  }

  /** Repeated reads at the far end return exactly the frames written in full, in order. */
  lemma {:induction false} ReadsWhatWasWritten(w: Wire)
    requires WireOk(w)
    ensures DecodeAll(w.bytes) == Whole(w)
  {
    if w.rest == [] {
      DecodeAllWritten(w.sent, Datagram([], []), 0);
      assert w.bytes == EncodeAll(w.sent) + Encode(Datagram([], []))[..0];
    } else {
      var n := |w.sent| - 1;
      var last := w.sent[n];
      EncodeAllNext(w.sent, n);
      assert w.sent[..n + 1] == w.sent;
      var k := |Encode(last)| - |w.rest|;
      assert w.bytes == (w.bytes + w.rest)[..|w.bytes|];
      assert w.bytes == EncodeAll(w.sent[..n]) + Encode(last)[..k];
      DecodeAllWritten(w.sent[..n], last, k);
    }
  }

  // ------------------------------------------------------------------------
  // The two ends
  // ------------------------------------------------------------------------

  /** A visitor's address; `text` is what its String method gives. */
  datatype Addr = Addr(text: Bytes, id: nat)

  datatype Pump =
    | Reading
    | Got(data: Bytes)                   // a reply read, the lock not yet taken
    | Writing(data: Bytes, begun: bool)  // holds the lock; not begun if the channel was already broken
    | Stopping                           // left the loop
    | Stopped                            // socket closed, flow entry still present
    | Exited

  /** A local socket, the source it was opened for and the goroutine that reads it. */
  datatype Socket = Socket(from: Bytes, open: bool, pump: Pump)

  datatype Delivery = Delivery(to: Addr, frame: Datagram)

  /**
   `serving` and `replying` say that the server's two loops are running.  `heard`, `senders`, `replies` and
   `forwarded` record history: the addresses that have sent, the socket behind each frame on `down`, what
   was read from which socket, and the socket that each frame read from `up` was written to, if any.
   */
  datatype State = State(
    serving: bool, replying: bool, seen: map<Bytes, Addr>, heard: set<Addr>, delivered: seq<Delivery>,
    up: Wire, down: Wire, broken: bool,
    flows: map<Bytes, nat>, sockets: seq<Socket>, lock: Option<nat>, stopped: bool,
    senders: seq<nat>, replies: set<(nat, Bytes)>, forwarded: seq<Option<nat>>)

  const Initial :=
    State(true, true, map[], {}, [], EmptyWire, EmptyWire, false, map[], [], None, false, [], {}, [])

  datatype Step =
    | Hear(a: Addr, data: Bytes)        // server: a datagram from the public socket
    | PushUp(n: nat)                    // server: some more bytes of its frame
    | ServerQuit                        // server: the loop on the public socket ends
    | ServerRead(sent: bool)            // server: a reply frame; its loop ends if it cannot be sent on
    | ServerStop                        // server: the loop on the data channel ends
    | Break                             // the data channel stops accepting bytes
    | ClientRead(dialled: bool, wrote: bool)  // client: a frame; a new source's dial, or the write, may fail
    | ClientStop                        // client: the read loop ends and closes every flow
    | LocalRead(p: nat, data: Bytes)    // pump: a reply from the local service
    | LocalFail(p: nat)                 // pump: idle, closed or failed socket
    | Lock(p: nat)
    | PushDown(n: nat)                  // pump: some more bytes of its frame
    | Unlock(p: nat)
    | WriteFail(p: nat)
    | CloseLocal(p: nat)
    | Forget(p: nat)                    // pump: delete its flow entry

  predicate InPump(s: State, p: nat) {
    p < |s.sockets|
  }

  predicate Enabled(s: State, a: Step) {
    match a
    case Hear(_, _) => s.serving && s.up.rest == []
    case PushUp(n) => !s.broken && 0 < n <= |s.up.rest|
    case ServerQuit => true
    case ServerRead(_) => s.replying && Arrived(s.down).Some?
    case ServerStop => true
    case Break => true
    case ClientRead(_, _) => !s.stopped && Arrived(s.up).Some?
    case ClientStop => !s.stopped
    case LocalRead(p, data) =>
      InPump(s, p) && s.sockets[p].open && s.sockets[p].pump == Reading && 0 < |data| <= MAX
    case LocalFail(p) => InPump(s, p) && s.sockets[p].pump == Reading
    case Lock(p) => InPump(s, p) && s.sockets[p].pump.Got? && s.lock == None
    case PushDown(n) => !s.broken && s.lock.Some? && 0 < n <= |s.down.rest|
    case Unlock(p) =>
      InPump(s, p) && s.lock == Some(p) && s.down.rest == [] && s.sockets[p].pump.Writing? && s.sockets[p].pump.begun
    case WriteFail(p) => InPump(s, p) && s.lock == Some(p) && s.broken
    case CloseLocal(p) => InPump(s, p) && s.sockets[p].pump == Stopping
    case Forget(p) => InPump(s, p) && s.sockets[p].pump == Stopped
  }

  function SetPump(s: State, p: nat, pump: Pump): State
    requires InPump(s, p)
  {
    s.(sockets := s.sockets[p := s.sockets[p].(pump := pump)])
  }

  function Shut(s: State, p: nat): Socket
    requires InPump(s, p)
  {
    var k := s.sockets[p];
    if k.from in s.flows && s.flows[k.from] == p then k.(open := false) else k
  }

  predicate IsOpen(s: State, p: nat) {
    InPump(s, p) && s.sockets[p].open
  }

  /** The client writes the frame it has read to `target`, if there is one. */
  function Forward(s: State, target: Option<nat>): State {
    s.(forwarded := s.forwarded + [target])
  }

  function OpenSocket(s: State, from: Bytes): State {
    s.(flows := s.flows[from := |s.sockets|], sockets := s.sockets + [Socket(from, true, Reading)])
  }

  /** What the client does with a frame from `from`: its socket is dialled if it has none. */
  function Route(s: State, from: Bytes, dialled: bool, wrote: bool): State {
    if from in s.flows then Forward(s, if wrote && IsOpen(s, s.flows[from]) then Some(s.flows[from]) else None)
    else if !dialled then Forward(s, None)
    else OpenSocket(Forward(s, if wrote then Some(|s.sockets|) else None), from)
  }

  /** The server sends a reply on to its source, if it knows it. */
  function Deliver(s: State, d: Datagram, sent: bool): State {
    if d.from !in s.seen then s
    else if sent then s.(delivered := s.delivered + [Delivery(s.seen[d.from], d)])
    else s.(replying := false)
  }

  /** Steps of the server, and the channel breaking. */
  predicate ServerSide(a: Step) {
    a.Hear? || a.PushUp? || a.ServerQuit? || a.ServerRead? || a.ServerStop? || a.Break?
  }

  function ServerNext(s: State, a: Step): State
    requires Enabled(s, a) && ServerSide(a)
  {
    match a
    case Hear(addr, data) =>
      var noted := s.(seen := s.seen[addr.text := addr], heard := s.heard + {addr});
      if s.broken || !Fits(Datagram(addr.text, data)) then noted.(serving := false)
      else noted.(up := Begin(s.up, Datagram(addr.text, data)))
    case PushUp(n) => s.(up := Push(s.up, n))
    case ServerQuit => s.(serving := false)
    case ServerRead(sent) => Deliver(s.(down := Pull(s.down)), Arrived(s.down).value.0, sent)
    case ServerStop => s.(replying := false)
    case Break => s.(broken := true)
  }

  function ClientNext(s: State, a: Step): State
    requires Enabled(s, a) && !ServerSide(a)
  {
    match a
    case ClientRead(dialled, wrote) => Route(s.(up := Pull(s.up)), Arrived(s.up).value.0.from, dialled, wrote)
    case ClientStop =>
      s.(stopped := true, sockets := seq(|s.sockets|, p requires 0 <= p < |s.sockets| => Shut(s, p)))
    case LocalRead(p, data) => SetPump(s, p, Got(data)).(replies := s.replies + {(p, data)})
    case LocalFail(p) => SetPump(s, p, Stopping)
    case Lock(p) =>
      var data := s.sockets[p].pump.data;
      var locked := SetPump(s, p, Writing(data, !s.broken)).(lock := Some(p));
      if s.broken then locked
      else locked.(down := Begin(s.down, Datagram(s.sockets[p].from, data)), senders := s.senders + [p])
    case PushDown(n) => s.(down := Push(s.down, n))
    case Unlock(p) => SetPump(s, p, Reading).(lock := None)
    case WriteFail(p) => SetPump(s, p, Stopping).(lock := None)
    case CloseLocal(p) => s.(sockets := s.sockets[p := s.sockets[p].(pump := Stopped, open := false)])
    case Forget(p) => SetPump(s, p, Exited).(flows := s.flows - {s.sockets[p].from})
  }

  function Next(s: State, a: Step): State
    requires Enabled(s, a)
  {
    if ServerSide(a) then ServerNext(s, a) else ClientNext(s, a)
  }

  predicate Runs(s: State, run: seq<Step>)
    decreases |run|
  {
    run == [] || (Enabled(s, run[0]) && Runs(Next(s, run[0]), run[1..]))
  }

  function After(s: State, run: seq<Step>): State
    requires Runs(s, run)
    decreases |run|
  {
    if run == [] then s else After(Next(s, run[0]), run[1..])
  }

  // ------------------------------------------------------------------------
  // Invariants
  // ------------------------------------------------------------------------

  /** The server knows an address for every source it has told the client about. */
  predicate SeenOk(s: State) {
    && (forall k :: k in s.seen ==> s.seen[k].text == k && s.seen[k] in s.heard)
    && (forall i :: 0 <= i < |s.up.sent| ==> s.up.sent[i].from in s.seen)
  }

  /** The replies read so far have been delivered, but for one whose sending ended the loop. */
  predicate DeliveredOk(s: State) {
    && |s.delivered| <= s.down.count <= |s.down.sent|
    && (s.replying ==> |s.delivered| == s.down.count)
    && s.down.count <= |s.delivered| + 1
    && (forall j :: 0 <= j < |s.delivered| ==> DeliveryOk(s, s.delivered[j], s.down.sent[j]))
  }

  predicate DeliveryOk(s: State, x: Delivery, d: Datagram) {
    x.frame == d && x.to.text == d.from && x.to in s.heard
  }

  predicate SocketOk(s: State, p: nat, k: Socket) {
    && k.from in s.seen
    && |k.from| <= MAX
    && (k.pump != Exited ==> k.from in s.flows && s.flows[k.from] == p)
    && (k.open ==> k.pump != Stopped && k.pump != Exited)
    && (k.pump.Got? || k.pump.Writing? ==> (p, k.pump.data) in s.replies && |k.pump.data| <= MAX)
    && (k.pump.Writing? <==> s.lock == Some(p))
    && (k.pump.Writing? && !k.pump.begun ==> s.broken)
  }

  /** A socket answers only for the source it was opened for, and flows lists the live ones. */
  predicate ClientOk(s: State) {
    && (forall p :: 0 <= p < |s.sockets| ==> SocketOk(s, p, s.sockets[p]))
    && (forall k :: k in s.flows ==>
          s.flows[k] < |s.sockets| && s.sockets[s.flows[k]].from == k && s.sockets[s.flows[k]].pump != Exited)
    && (s.lock.Some? ==> s.lock.value < |s.sockets|)
    && |s.senders| == |s.down.sent|
    && (forall j :: 0 <= j < |s.senders| ==> SenderOk(s, s.senders[j], s.down.sent[j]))
  }

  predicate SenderOk(s: State, p: nat, d: Datagram) {
    p < |s.sockets| && s.sockets[p].from == d.from && (p, d.data) in s.replies
  }

  /** The partial frame, if any, belongs to the lock holder, or to whoever wrote when the channel broke. */
  predicate PartialOwned(s: State) {
    s.down.rest != [] && !s.broken ==>
      s.senders != [] && s.lock == Some(s.senders[|s.senders| - 1])
  }

  /** A frame read from `up` was written to no socket but one opened for its source. */
  predicate ForwardedOk(s: State) {
    && |s.forwarded| == s.up.count <= |s.up.sent|
    && (forall j :: 0 <= j < |s.forwarded| && s.forwarded[j].Some? ==>
          ForSource(s, s.forwarded[j].value, s.up.sent[j]))
  }

  predicate ForSource(s: State, p: nat, d: Datagram) {
    p < |s.sockets| && s.sockets[p].from == d.from
  }

  predicate Inv(s: State) {
    && WireOk(s.up) && WireOk(s.down) && PartialOwned(s)
    && SeenOk(s) && DeliveredOk(s) && ClientOk(s) && ForwardedOk(s)
  }

  /** The frame a pump that takes the lock is about to write. */
  function Reply(s: State, p: nat): Datagram
    requires InPump(s, p) && s.sockets[p].pump.Got?
  {
    Datagram(s.sockets[p].from, s.sockets[p].pump.data)
  }

  /** The client's side is the same in both states. */
  predicate SameClient(s: State, t: State) {
    && t.sockets == s.sockets && t.flows == s.flows && t.lock == s.lock && t.replies == s.replies
    && t.senders == s.senders && t.down.sent == s.down.sent && t.down.rest == s.down.rest
    && t.forwarded == s.forwarded && t.up.count == s.up.count
  }

  /** The server's side is the same in both states. */
  predicate SameServer(s: State, t: State) {
    && t.seen == s.seen && t.heard == s.heard && t.delivered == s.delivered
    && t.serving == s.serving && t.replying == s.replying
    && t.down.count == s.down.count && t.up.sent == s.up.sent && t.broken == s.broken
  }

  lemma HearFrame(s: State, a: Step)
    requires Enabled(s, a) && a.Hear?
    ensures
      var t := Next(s, a);
      && SameClient(s, t) && t.delivered == s.delivered && t.down == s.down && t.replying == s.replying
      && s.up.sent <= t.up.sent && s.seen.Keys <= t.seen.Keys && s.heard <= t.heard && t.broken == s.broken
  {}

  lemma DeliverFrame(s: State, n: nat, d: Datagram, sent: bool)
    ensures
      var t := Deliver(s.(down := Skip(s.down, n)), d, sent);
      && SameClient(s, t) && t.up == s.up && t.seen == s.seen && t.heard == s.heard && t.broken == s.broken
      && (t.replying ==> s.replying)
  {}

  lemma ServerQuietFrame(s: State, a: Step)
    requires Enabled(s, a) && (a.PushUp? || a.ServerQuit? || a.ServerStop? || a.Break?)
    ensures
      var t := Next(s, a);
      && SameClient(s, t) && t.down == s.down && t.up.sent == s.up.sent && t.delivered == s.delivered
      && t.seen == s.seen && t.heard == s.heard && (s.broken ==> t.broken) && (t.replying ==> s.replying)
  {}

  /** A step of the server leaves the client's side as it is. */
  lemma ServerSideFrame(s: State, a: Step)
    requires Enabled(s, a) && ServerSide(a)
    ensures
      var t := Next(s, a);
      && SameClient(s, t) && s.up.sent <= t.up.sent && s.seen.Keys <= t.seen.Keys && s.heard <= t.heard
      && (s.broken ==> t.broken) && (t.replying ==> s.replying)
      && (!a.ServerRead? ==> t.delivered == s.delivered && t.down == s.down)
      && (!a.Hear? ==> t.seen == s.seen && t.heard == s.heard && t.up.sent == s.up.sent)
  {
    if a.Hear? {
      HearFrame(s, a);
    } else if a.ServerRead? {
      DeliverFrame(s, Arrived(s.down).value.1, Arrived(s.down).value.0, a.sent);
    } else {
      ServerQuietFrame(s, a);
    }
  }

  /** What the client's read of a frame leaves as it is. */
  predicate OnlyRouted(s: State, t: State, n: nat) {
    && SameServer(s, t) && t.down == s.down && t.up == Skip(s.up, n)
    && t.lock == s.lock && t.senders == s.senders && t.stopped == s.stopped && t.replies == s.replies
  }

  lemma ForwardFrame(s: State, n: nat, target: Option<nat>)
    ensures OnlyRouted(s, Forward(s.(up := Skip(s.up, n)), target), n)
  {}

  lemma OpenFrame(s: State, t: State, n: nat, from: Bytes)
    requires OnlyRouted(s, t, n)
    ensures OnlyRouted(s, OpenSocket(t, from), n)
  {}

  lemma RouteFrame(s: State, n: nat, from: Bytes, dialled: bool, wrote: bool)
    ensures OnlyRouted(s, Route(s.(up := Skip(s.up, n)), from, dialled, wrote), n)
  {
    if from in s.flows {
      ForwardFrame(s, n, if wrote && IsOpen(s, s.flows[from]) then Some(s.flows[from]) else None);
    } else if !dialled {
      ForwardFrame(s, n, None);
    } else {
      var target := if wrote then Some(|s.sockets|) else None;
      ForwardFrame(s, n, target);
      OpenFrame(s, Forward(s.(up := Skip(s.up, n)), target), n, from);
    }
  }

  lemma ClientReadFrame(s: State, a: Step)
    requires Enabled(s, a) && a.ClientRead?
    ensures SameServer(s, Next(s, a)) && Next(s, a).down == s.down && Next(s, a).up == Pull(s.up)
    ensures Next(s, a).lock == s.lock && Next(s, a).senders == s.senders && Next(s, a).stopped == s.stopped
  {
    RouteFrame(s, Arrived(s.up).value.1, Arrived(s.up).value.0.from, a.dialled, a.wrote);
  }

  lemma LockFrame(s: State, a: Step)
    requires Enabled(s, a) && a.Lock?
    ensures SameServer(s, Next(s, a)) && s.down.sent <= Next(s, a).down.sent
  {}

  lemma StopFrame(s: State)
    requires Enabled(s, ClientStop)
    ensures SameServer(s, Next(s, ClientStop)) && s.down == Next(s, ClientStop).down
  {}

  lemma WriterFrame(s: State, a: Step)
    requires Enabled(s, a) && (a.PushDown? || a.Unlock? || a.WriteFail?)
    ensures SameServer(s, Next(s, a)) && s.down.sent == Next(s, a).down.sent
  {}

  lemma ReaderFrame(s: State, a: Step)
    requires Enabled(s, a) && (a.LocalRead? || a.LocalFail?)
    ensures SameServer(s, Next(s, a)) && s.down == Next(s, a).down
  {}

  lemma LeaverFrame(s: State, a: Step)
    requires Enabled(s, a) && (a.CloseLocal? || a.Forget?)
    ensures SameServer(s, Next(s, a)) && s.down == Next(s, a).down
  {}

  lemma PumpFrame(s: State, a: Step)
    requires Enabled(s, a) && !ServerSide(a) && !a.ClientRead? && !a.Lock?
    ensures SameServer(s, Next(s, a)) && s.down.sent == Next(s, a).down.sent
  {
    if a.ClientStop? {
      StopFrame(s);
    } else if a.PushDown? || a.Unlock? || a.WriteFail? {
      WriterFrame(s, a);
    } else if a.LocalRead? || a.LocalFail? {
      ReaderFrame(s, a);
    } else {
      LeaverFrame(s, a);
    }
  }

  /** A step of the client leaves the server's side as it is. */
  lemma ClientSideFrame(s: State, a: Step)
    requires Enabled(s, a) && !ServerSide(a)
    ensures SameServer(s, Next(s, a)) && s.down.sent <= Next(s, a).down.sent
  {
    if a.ClientRead? {
      ClientReadFrame(s, a);
    } else if a.Lock? {
      LockFrame(s, a);
    } else {
      PumpFrame(s, a);
    }
  }

  /** The same sockets, each for the source it was opened for, and nothing more forwarded. */
  predicate SameSources(s: State, t: State) {
    && t.forwarded == s.forwarded && t.up == s.up && |t.sockets| == |s.sockets|
    && forall p :: 0 <= p < |s.sockets| ==> t.sockets[p].from == s.sockets[p].from
  }

  lemma StopSources(s: State)
    requires Enabled(s, ClientStop)
    ensures SameSources(s, Next(s, ClientStop))
  {}

  lemma LockSources(s: State, a: Step)
    requires Enabled(s, a) && (a.Lock? || a.Unlock? || a.WriteFail? || a.PushDown?)
    ensures SameSources(s, Next(s, a))
  {}

  lemma PumpSources(s: State, a: Step)
    requires Enabled(s, a) && (a.LocalRead? || a.LocalFail? || a.CloseLocal? || a.Forget?)
    ensures SameSources(s, Next(s, a))
  {}

  /** Only the client's read loop forwards and opens sockets. */
  lemma ForwardingFrame(s: State, a: Step)
    requires Enabled(s, a) && !ServerSide(a) && !a.ClientRead?
    ensures SameSources(s, Next(s, a))
  {
    if a.ClientStop? {
      StopSources(s);
    } else if a.Lock? || a.Unlock? || a.WriteFail? || a.PushDown? {
      LockSources(s, a);
    } else {
      PumpSources(s, a);
    }
  }

  lemma UpSame(s: State, a: Step)
    requires Enabled(s, a) && !a.Hear? && !a.PushUp? && !a.ClientRead?
    ensures Next(s, a).up == s.up
  {
    if a.ServerRead? {
      DeliverFrame(s, Arrived(s.down).value.1, Arrived(s.down).value.0, a.sent);
    } else if !ServerSide(a) {
      ForwardingFrame(s, a);
    }
  }

  lemma UpHear(s: State, a: Step)
    requires WireOk(s.up) && Enabled(s, a) && a.Hear?
    ensures WireOk(Next(s, a).up)
  {
    if !s.broken && Fits(Datagram(a.a.text, a.data)) {
      BeginOk(s.up, Datagram(a.a.text, a.data));
    }
  }

  lemma UpStep(s: State, a: Step)
    requires WireOk(s.up) && Enabled(s, a)
    ensures WireOk(Next(s, a).up)
  {
    match a {
      case Hear(_, _) => UpHear(s, a);
      case PushUp(n) => PushOk(s.up, n);
      case ClientRead(_, _) =>
        PullOk(s.up);
        ClientReadFrame(s, a);
      case _ => UpSame(s, a);
    }
  }

  lemma DownSame(s: State, a: Step)
    requires Enabled(s, a) && !a.ServerRead? && !a.Lock? && !a.PushDown?
    ensures Next(s, a).down == s.down
  {
    if ServerSide(a) {
      ServerSideFrame(s, a);
    } else if a.ClientRead? {
      ClientReadFrame(s, a);
    } else if a.ClientStop? {
      StopFrame(s);
    } else if a.LocalRead? || a.LocalFail? {
      ReaderFrame(s, a);
    } else if a.CloseLocal? || a.Forget? {
      LeaverFrame(s, a);
    }
  }

  lemma DownRead(s: State, a: Step)
    requires Enabled(s, a) && a.ServerRead?
    ensures Next(s, a).down == Pull(s.down)
  {}

  lemma DownLock(s: State, a: Step)
    requires WireOk(s.down) && Enabled(s, a) && a.Lock?
    requires !s.broken ==> s.down.rest == [] && Fits(Reply(s, a.p))
    ensures WireOk(Next(s, a).down)
  {
    if !s.broken {
      BeginOk(s.down, Reply(s, a.p));
    }
  }

  lemma DownStep(s: State, a: Step)
    requires WireOk(s.down) && Enabled(s, a)
    requires a.Lock? && !s.broken ==> s.down.rest == [] && Fits(Reply(s, a.p))
    ensures WireOk(Next(s, a).down)
  {
    match a {
      case ServerRead(_) =>
        PullOk(s.down);
        DownRead(s, a);
      case Lock(p) => DownLock(s, a);
      case PushDown(n) => PushOk(s.down, n);
      case _ => DownSame(s, a);
    }
  }

  lemma SeenHearStep(s: State, a: Step)
    requires SeenOk(s) && Enabled(s, a) && a.Hear?
    ensures SeenOk(Next(s, a))
  {}

  lemma SeenStep(s: State, a: Step)
    requires SeenOk(s) && Enabled(s, a)
    ensures SeenOk(Next(s, a))
  {
    if a.Hear? {
      SeenHearStep(s, a);
    } else if ServerSide(a) {
      ServerSideFrame(s, a);
    } else {
      ClientSideFrame(s, a);
    }
  }

  /** The reply frame about to be read is the next one, from a source the server knows. */
  predicate NextReply(s: State)
    requires Arrived(s.down).Some?
  {
    && s.down.count < |s.down.sent| && Arrived(s.down).value.0 == s.down.sent[s.down.count]
    && s.down.sent[s.down.count].from in s.seen
  }

  lemma DeliveredReadStep(s: State, a: Step)
    requires SeenOk(s) && DeliveredOk(s) && Enabled(s, a) && a.ServerRead? && NextReply(s)
    ensures DeliveredOk(Next(s, a))
  {}

  /** What was delivered stays right while more is heard and sent. */
  lemma DeliveredFrame(s: State, t: State)
    requires DeliveredOk(s) && t.delivered == s.delivered && s.heard <= t.heard
    requires t.down.count == s.down.count && s.down.sent <= t.down.sent && (t.replying ==> s.replying)
    ensures DeliveredOk(t)
  {
    forall j | 0 <= j < |t.delivered|
      ensures DeliveryOk(t, t.delivered[j], t.down.sent[j])
    {
      assert DeliveryOk(s, s.delivered[j], s.down.sent[j]);
    }
  }

  /** The frame about to be read is the next one that the server framed. */
  predicate NextFrame(s: State)
    requires Arrived(s.up).Some?
  {
    s.up.count < |s.up.sent| && Arrived(s.up).value.0 == s.up.sent[s.up.count]
  }

  /** What was forwarded so far, while one more frame has been read. */
  predicate ForwardedBut(s: State) {
    && |s.forwarded| + 1 == s.up.count <= |s.up.sent|
    && (forall j :: 0 <= j < |s.forwarded| && s.forwarded[j].Some? ==>
          ForSource(s, s.forwarded[j].value, s.up.sent[j]))
  }

  lemma ForwardStep(s: State, target: Option<nat>)
    requires ForwardedBut(s) && (target.Some? ==> ForSource(s, target.value, s.up.sent[|s.forwarded|]))
    ensures ForwardedOk(Forward(s, target))
  {
    var t := Forward(s, target);
    forall j | 0 <= j < |t.forwarded| && t.forwarded[j].Some?
      ensures ForSource(t, t.forwarded[j].value, t.up.sent[j])
    {
      if j < |s.forwarded| {
        assert ForSource(s, s.forwarded[j].value, s.up.sent[j]);
      }
    }
  }

  lemma OpenStep(s: State, from: Bytes)
    requires ForwardedBut(s)
    ensures ForwardedBut(OpenSocket(s, from))
  {
    var t := OpenSocket(s, from);
    forall j | 0 <= j < |t.forwarded| && t.forwarded[j].Some?
      ensures ForSource(t, t.forwarded[j].value, t.up.sent[j])
    {
      assert ForSource(s, s.forwarded[j].value, s.up.sent[j]);
    }
  }

  lemma RouteStep(s: State, from: Bytes, dialled: bool, wrote: bool)
    requires ClientOk(s) && ForwardedBut(s) && s.up.sent[|s.forwarded|].from == from
    ensures ForwardedOk(Route(s, from, dialled, wrote))
  {
    if from in s.flows {
      ForwardStep(s, if wrote && IsOpen(s, s.flows[from]) then Some(s.flows[from]) else None);
    } else if !dialled {
      ForwardStep(s, None);
    } else {
      var with, target := OpenSocket(s, from), if wrote then Some(|s.sockets|) else None;
      OpenStep(s, from);
      ForwardStep(with, target);
      assert Route(s, from, dialled, wrote) == Forward(with, target);
    }
  }

  lemma ForwardedReadStep(s: State, a: Step)
    requires ClientOk(s) && ForwardedOk(s) && Enabled(s, a) && a.ClientRead? && NextFrame(s)
    ensures ForwardedOk(Next(s, a))
  {
    var at := s.(up := Pull(s.up));
    ReadAhead(s, Arrived(s.up).value.1);
    RouteStep(at, Arrived(s.up).value.0.from, a.dialled, a.wrote);
  }

  lemma ReadAhead(s: State, n: nat)
    requires ClientOk(s) && ForwardedOk(s) && s.up.count < |s.up.sent|
    ensures ClientOk(s.(up := Skip(s.up, n))) && ForwardedBut(s.(up := Skip(s.up, n)))
  {
    var t := s.(up := Skip(s.up, n));
    ClientFrame(s, t);
    forall j | 0 <= j < |t.forwarded| && t.forwarded[j].Some?
      ensures ForSource(t, t.forwarded[j].value, t.up.sent[j])
    {
      assert ForSource(s, s.forwarded[j].value, s.up.sent[j]);
    }
  }

  /** What was forwarded stays right while sockets change state. */
  lemma ForwardedFrame(s: State, t: State)
    requires ForwardedOk(s) && t.forwarded == s.forwarded && t.up.count == s.up.count && s.up.sent <= t.up.sent
    requires |t.sockets| == |s.sockets| && forall p :: 0 <= p < |s.sockets| ==> t.sockets[p].from == s.sockets[p].from
    ensures ForwardedOk(t)
  {
    forall j | 0 <= j < |t.forwarded| && t.forwarded[j].Some?
      ensures ForSource(t, t.forwarded[j].value, t.up.sent[j])
    {
      assert ForSource(s, s.forwarded[j].value, s.up.sent[j]);
    }
  }

  lemma ServerHistoryStep(s: State, a: Step)
    requires SeenOk(s) && DeliveredOk(s) && Enabled(s, a) && (a.ServerRead? ==> NextReply(s))
    ensures DeliveredOk(Next(s, a))
  {
    if a.ServerRead? {
      DeliveredReadStep(s, a);
    } else {
      if ServerSide(a) {
        ServerSideFrame(s, a);
      } else {
        ClientSideFrame(s, a);
      }
      DeliveredFrame(s, Next(s, a));
    }
  }

  lemma ClientHistoryStep(s: State, a: Step)
    requires ClientOk(s) && ForwardedOk(s) && Enabled(s, a) && (a.ClientRead? ==> NextFrame(s))
    ensures ForwardedOk(Next(s, a))
  {
    if a.ClientRead? {
      ForwardedReadStep(s, a);
    } else {
      if ServerSide(a) {
        ServerSideFrame(s, a);
      } else {
        ForwardingFrame(s, a);
      }
      ForwardedFrame(s, Next(s, a));
    }
  }

  /** The client's side is as it was, while more is heard or the channel breaks. */
  lemma ClientFrame(s: State, t: State)
    requires ClientOk(s) && t.sockets == s.sockets && t.flows == s.flows && t.lock == s.lock
    requires t.senders == s.senders && t.down.sent == s.down.sent && t.replies == s.replies
    requires s.seen.Keys <= t.seen.Keys && (s.broken ==> t.broken)
    ensures ClientOk(t)
  {
    forall p | 0 <= p < |t.sockets|
      ensures SocketOk(t, p, t.sockets[p])
    {
      assert SocketOk(s, p, s.sockets[p]);
    }
    forall j | 0 <= j < |t.senders|
      ensures SenderOk(t, t.senders[j], t.down.sent[j])
    {
      assert SenderOk(s, s.senders[j], s.down.sent[j]);
    }
  }

  lemma ClientOpenStep(s: State, from: Bytes)
    requires ClientOk(s) && from !in s.flows && from in s.seen && |from| <= MAX
    ensures ClientOk(OpenSocket(s, from))
  {
    var t := OpenSocket(s, from);
    forall p | 0 <= p < |t.sockets|
      ensures SocketOk(t, p, t.sockets[p])
    {
      if p < |s.sockets| {
        assert SocketOk(s, p, s.sockets[p]);
      }
    }
    forall j | 0 <= j < |t.senders|
      ensures SenderOk(t, t.senders[j], t.down.sent[j])
    {
      assert SenderOk(s, s.senders[j], s.down.sent[j]);
    }
  }

  lemma ClientRouteStep(s: State, n: nat, from: Bytes, dialled: bool, wrote: bool)
    requires ClientOk(s) && from in s.seen && |from| <= MAX
    ensures ClientOk(Route(s.(up := Skip(s.up, n)), from, dialled, wrote))
  {
    var at := s.(up := Skip(s.up, n));
    if from in s.flows || !dialled {
      ClientFrame(s, Route(at, from, dialled, wrote));
    } else {
      var read := Forward(at, if wrote then Some(|s.sockets|) else None);
      ClientFrame(s, read);
      ClientOpenStep(read, from);
    }
  }

  lemma ClientReadStep(s: State, a: Step)
    requires ClientOk(s) && Enabled(s, a) && a.ClientRead?
    requires Arrived(s.up).value.0.from in s.seen && |Arrived(s.up).value.0.from| <= MAX
    ensures ClientOk(Next(s, a))
  {
    ClientRouteStep(s, Arrived(s.up).value.1, Arrived(s.up).value.0.from, a.dialled, a.wrote);
  }

  lemma ClientUnlockStep(s: State, a: Step)
    requires ClientOk(s) && Enabled(s, a) && a.Unlock?
    ensures ClientOk(Next(s, a))
  {}

  lemma ClientWriteFailStep(s: State, a: Step)
    requires ClientOk(s) && Enabled(s, a) && a.WriteFail?
    ensures ClientOk(Next(s, a))
  {}

  lemma LockedSocket(s: State, a: Step, p: nat)
    requires ClientOk(s) && Enabled(s, a) && a.Lock? && p < |s.sockets|
    ensures SocketOk(Next(s, a), p, Next(s, a).sockets[p])
  {
    assert SocketOk(s, p, s.sockets[p]);
  }

  lemma LockedSender(s: State, a: Step, j: nat)
    requires ClientOk(s) && Enabled(s, a) && a.Lock? && j < |Next(s, a).senders|
    ensures j < |Next(s, a).down.sent| && SenderOk(Next(s, a), Next(s, a).senders[j], Next(s, a).down.sent[j])
  {
    if j < |s.senders| {
      assert SenderOk(s, s.senders[j], s.down.sent[j]);
    } else {
      assert SocketOk(s, a.p, s.sockets[a.p]);
    }
  }

  lemma ClientLockStep(s: State, a: Step)
    requires ClientOk(s) && Enabled(s, a) && a.Lock?
    ensures ClientOk(Next(s, a))
  {
    var t := Next(s, a);
    assert |t.sockets| == |s.sockets| && t.flows == s.flows;
    forall p | 0 <= p < |t.sockets|
      ensures SocketOk(t, p, t.sockets[p])
    {
      LockedSocket(s, a, p);
    }
    forall j | 0 <= j < |t.senders|
      ensures SenderOk(t, t.senders[j], t.down.sent[j])
    {
      LockedSender(s, a, j);
    }
  }

  lemma ClientStopStep(s: State)
    requires ClientOk(s) && Enabled(s, ClientStop)
    ensures ClientOk(Next(s, ClientStop))
  {}

  lemma ClientForgetStep(s: State, p: nat)
    requires ClientOk(s) && Enabled(s, Forget(p))
    ensures ClientOk(Next(s, Forget(p)))
  {}

  lemma ClientReplyStep(s: State, a: Step)
    requires ClientOk(s) && Enabled(s, a) && a.LocalRead?
    ensures ClientOk(Next(s, a))
  {}

  lemma ClientLocalStep(s: State, a: Step)
    requires ClientOk(s) && Enabled(s, a) && a.LocalFail?
    ensures ClientOk(Next(s, a))
  {}

  lemma ClientCloseStep(s: State, a: Step)
    requires ClientOk(s) && Enabled(s, a) && a.CloseLocal?
    ensures ClientOk(Next(s, a))
  {}

  lemma ClientQuietStep(s: State, a: Step)
    requires ClientOk(s) && Enabled(s, a)
    requires ServerSide(a) || a.PushDown?
    ensures ClientOk(Next(s, a))
  {
    if ServerSide(a) {
      ServerSideFrame(s, a);
    }
    ClientFrame(s, Next(s, a));
  }

  lemma ClientStep(s: State, a: Step)
    requires ClientOk(s) && Enabled(s, a)
    requires a.ClientRead? ==> Arrived(s.up).value.0.from in s.seen && |Arrived(s.up).value.0.from| <= MAX
    ensures ClientOk(Next(s, a))
  {
    match a {
      case ClientRead(_, _) => ClientReadStep(s, a);
      case ClientStop => ClientStopStep(s);
      case Forget(p) => ClientForgetStep(s, p);
      case Lock(_) => ClientLockStep(s, a);
      case Unlock(_) => ClientUnlockStep(s, a);
      case WriteFail(_) => ClientWriteFailStep(s, a);
      case LocalRead(_, _) => ClientReplyStep(s, a);
      case LocalFail(_) => ClientLocalStep(s, a);
      case CloseLocal(_) => ClientCloseStep(s, a);
      case _ => ClientQuietStep(s, a);
    }
  }

  /** What the step lemmas need to know about frames that arrive or begin. */
  predicate Ready(s: State, a: Step)
    requires Enabled(s, a)
  {
    && (a.Lock? && !s.broken ==> s.down.rest == [] && Fits(Reply(s, a.p)))
    && (a.ServerRead? ==> NextReply(s))
    && (a.ClientRead? ==>
          && NextFrame(s)
          && Arrived(s.up).value.0.from in s.seen && |Arrived(s.up).value.0.from| <= MAX)
  }

  lemma ReadyStep(s: State, a: Step)
    requires Inv(s) && Enabled(s, a)
    ensures Ready(s, a)
  {
    if a.ServerRead? {
      PullOk(s.down);
      assert SenderOk(s, s.senders[s.down.count], s.down.sent[s.down.count]);
    } else if a.ClientRead? {
      PullOk(s.up);
    } else if a.Lock? {
      assert SocketOk(s, a.p, s.sockets[a.p]);
    }
  }

  lemma PartialWriterStep(s: State, a: Step)
    requires PartialOwned(s) && |s.senders| == |s.down.sent| && Enabled(s, a)
    requires a.Lock? || a.Unlock? || a.WriteFail? || a.PushDown?
    requires a.Lock? && !s.broken ==> s.down.rest == []
    ensures PartialOwned(Next(s, a))
  {}

  lemma PumpQuietFrame(s: State, a: Step)
    requires Enabled(s, a) && !ServerSide(a) && !a.Lock? && !a.Unlock? && !a.WriteFail? && !a.PushDown?
    ensures Next(s, a).lock == s.lock && Next(s, a).senders == s.senders && Next(s, a).broken == s.broken
  {
    if a.ClientRead? {
      ClientReadFrame(s, a);
    }
  }

  lemma PartialStep(s: State, a: Step)
    requires PartialOwned(s) && |s.senders| == |s.down.sent| && Enabled(s, a)
    requires a.Lock? && !s.broken ==> s.down.rest == []
    ensures PartialOwned(Next(s, a))
  {
    if ServerSide(a) {
      ServerSideFrame(s, a);
    } else if a.Lock? || a.Unlock? || a.WriteFail? || a.PushDown? {
      PartialWriterStep(s, a);
    } else {
      PumpQuietFrame(s, a);
      DownSame(s, a);
    }
  }

  lemma InvStep(s: State, a: Step)
    requires Inv(s) && Enabled(s, a)
    ensures Inv(Next(s, a))
  {
    ReadyStep(s, a);
    UpStep(s, a);
    DownStep(s, a);
    SeenStep(s, a);
    ServerHistoryStep(s, a);
    ClientHistoryStep(s, a);
    ClientStep(s, a);
    PartialStep(s, a);
  }

  lemma {:induction false} AlwaysInv(s: State, run: seq<Step>)
    requires Inv(s) && Runs(s, run)
    ensures Inv(After(s, run))
    decreases |run|
  {
    if run != [] {
      InvStep(s, run[0]);
      AlwaysInv(Next(s, run[0]), run[1..]);
    }
  }

  // ------------------------------------------------------------------------
  // Whole runs
  // ------------------------------------------------------------------------

  /**
   Whatever the pumps' interleaving, the far end reads exactly the frames written in full, in
   the order the lock was taken; a partial frame is the last one and belongs to the lock holder.
   */
  lemma {:induction false} FramesNeverInterleave(run: seq<Step>)
    requires Runs(Initial, run)
    ensures
      var s := After(Initial, run);
      && DecodeAll(s.down.bytes) == Whole(s.down)
      && PartialOwned(s)
      && |s.senders| == |s.down.sent|
      && forall j :: 0 <= j < |s.senders| ==> SenderOk(s, s.senders[j], s.down.sent[j])
  {
    AlwaysInv(Initial, run);
    ReadsWhatWasWritten(After(Initial, run).down);
  }

  /**
   The replies the server reads are delivered in order, all of them while its loop runs and all but the one
   whose sending failed after that; each to an address that had sent on this channel under the very source
   whose local socket the reply was read from.
   */
  lemma {:induction false} RepliesReachTheirSource(run: seq<Step>)
    requires Runs(Initial, run)
    ensures
      var s := After(Initial, run);
      && |s.delivered| <= s.down.count <= |s.delivered| + 1 && (s.replying ==> |s.delivered| == s.down.count)
      && forall j :: 0 <= j < |s.delivered| ==> DeliveredRight(s, j)
  {
    AlwaysInv(Initial, run);
    var s := After(Initial, run);
    forall j | 0 <= j < |s.delivered|
      ensures DeliveredRight(s, j)
    {
      assert DeliveryOk(s, s.delivered[j], s.down.sent[j]);
      assert SenderOk(s, s.senders[j], s.down.sent[j]);
    }
  }

  /** Delivery `j` carries what was read from the socket of the source it goes back to. */
  predicate DeliveredRight(s: State, j: nat) {
    && j < |s.delivered| && j < |s.senders| && s.senders[j] < |s.sockets|
    && var x := s.delivered[j];
       && x.to in s.heard
       && x.to.text == s.sockets[s.senders[j]].from
       && (s.senders[j], x.frame.data) in s.replies
  }

  // ------------------------------------------------------------------------
  // From the visitors to the local sockets
  // ------------------------------------------------------------------------

  /**
   What the visitors sent while the server's loop was running: read off the run alone.  The loop ends with the
   first datagram that cannot be framed, or finds the channel broken.
   */
  function Framed(run: seq<Step>, broken: bool): seq<Datagram>
    decreases |run|
  {
    if run == [] then [] else
    match run[0]
    case Hear(a, data) =>
      if broken || |a.text| > MAX || |data| > MAX then []
      else [Datagram(a.text, data)] + Framed(run[1..], broken)
    case ServerQuit => []
    case Break => Framed(run[1..], true)
    case _ => Framed(run[1..], broken)
  }

  lemma FramedQuiet(s: State, a: Step)
    requires Enabled(s, a) && !a.Hear?
    ensures
      var t := Next(s, a);
      && t.up.sent == s.up.sent && t.broken == (s.broken || a.Break?) && t.serving == (s.serving && !a.ServerQuit?)
  {
    if a.ServerRead? {
      DeliverServing(s, Arrived(s.down).value.1, Arrived(s.down).value.0, a.sent);
    } else if !ServerSide(a) {
      ClientSideFrame(s, a);
    }
  }

  lemma DeliverServing(s: State, n: nat, d: Datagram, sent: bool)
    ensures
      var t := Deliver(s.(down := Skip(s.down, n)), d, sent);
      t.up == s.up && t.serving == s.serving && t.broken == s.broken
  {}

  lemma {:induction false} FramesAre(s: State, run: seq<Step>)
    requires Runs(s, run)
    ensures After(s, run).up.sent == s.up.sent + if s.serving then Framed(run, s.broken) else []
    decreases |run|
  {
    if run != [] {
      var t := Next(s, run[0]);
      if !run[0].Hear? {
        FramedQuiet(s, run[0]);
      }
      FramesAre(t, run[1..]);
    }
  }

  /** The client reads what the visitors sent, address and data, in order, but for frames not yet written in full. */
  lemma {:induction false} ClientReadsWhatVisitorsSent(run: seq<Step>)
    requires Runs(Initial, run)
    ensures
      var s := After(Initial, run);
      && s.up.sent == Framed(run, false)
      && DecodeAll(s.up.bytes) <= Framed(run, false)
      && (s.up.rest == [] ==> DecodeAll(s.up.bytes) == Framed(run, false))
      && s.up.count <= |DecodeAll(s.up.bytes)|
  {
    UpIsFramed(run);
    ReadsWhatWasWritten(After(Initial, run).up);
    WholeRead(After(Initial, run).up);
  }

  lemma {:induction false} WholeRead(w: Wire)
    requires WireOk(w)
    ensures w.count <= |Whole(w)|
  {
    if w.count == |w.sent| {
      assert w.sent[..w.count] == w.sent;
      assert |w.rest| == 0;
    }
  }

  /** A local socket whose pump has not exited: the flow of its source. */
  predicate Lives(s: State, p: nat, from: Bytes) {
    p < |s.sockets| && s.sockets[p].from == from && s.sockets[p].pump != Exited
  }

  /** Where a frame from `from` goes: to the open socket of its source, or to none. */
  ghost predicate WellForwarded(s: State, t: State, from: Bytes, dialled: bool, wrote: bool) {
    && |t.forwarded| == |s.forwarded| + 1
    && var x := t.forwarded[|s.forwarded|];
       && (x.Some? ==> Lives(t, x.value, from) && t.sockets[x.value].open)
       && (forall p: nat :: Lives(s, p, from) ==> (x.Some? <==> wrote && s.sockets[p].open))
       && ((forall p: nat :: !Lives(s, p, from)) ==> (x.Some? <==> wrote && dialled))
  }

  /** The table knows exactly the sources that have a live socket. */
  lemma LivesIff(s: State, from: Bytes)
    requires ClientOk(s)
    ensures forall p: nat :: Lives(s, p, from) <==> from in s.flows && s.flows[from] == p
  {
    forall p: nat | Lives(s, p, from)
      ensures from in s.flows && s.flows[from] == p
    {
      assert SocketOk(s, p, s.sockets[p]);
    }
  }

  lemma ForwardChoice(s: State, n: nat, from: Bytes, dialled: bool, wrote: bool)
    requires ClientOk(s)
    ensures
      var at := s.(up := Skip(s.up, n));
      WellForwarded(s, Route(at, from, dialled, wrote), from, dialled, wrote)
  {
    LivesIff(s, from);
    if from in s.flows {
      assert Lives(s, s.flows[from], from);
    }
  }

  lemma {:induction false} ReadForwards(s: State, dialled: bool, wrote: bool)
    requires WireOk(s.up) && ClientOk(s) && Enabled(s, ClientRead(dialled, wrote))
    ensures
      && s.up.count < |s.up.sent|
      && WellForwarded(s, Next(s, ClientRead(dialled, wrote)), s.up.sent[s.up.count].from, dialled, wrote)
  {
    PullOk(s.up);
    ForwardChoice(s, Arrived(s.up).value.1, Arrived(s.up).value.0.from, dialled, wrote);
  }

  /**
   The client writes the next frame to an open socket of the frame's own source, and to none exactly when the
   write fails, the source's socket has been closed, or the source has none and the dial fails.
   */
  lemma {:induction false} DatagramsReachTheirSocket(run: seq<Step>, dialled: bool, wrote: bool)
    requires Runs(Initial, run) && Enabled(After(Initial, run), ClientRead(dialled, wrote))
    ensures
      var s := After(Initial, run);
      && s.up.count < |Framed(run, false)|
      && WellForwarded(s, Next(s, ClientRead(dialled, wrote)), Framed(run, false)[s.up.count].from, dialled, wrote)
  {
    var s := After(Initial, run);
    UpIsFramed(run);
    ReadForwards(s, dialled, wrote);
  }

  lemma {:induction false} UpIsFramed(run: seq<Step>)
    requires Runs(Initial, run)
    ensures
      var s := After(Initial, run);
      s.up.sent == Framed(run, false) && WireOk(s.up) && ClientOk(s)
  {
    AlwaysInv(Initial, run);
    FramesAre(Initial, run);
  }

  // ------------------------------------------------------------------------
  // From the local sockets to the visitors
  // ------------------------------------------------------------------------

  /** The replies read from socket `p`: read off the run alone. */
  function ReadFrom(run: seq<Step>, p: nat): seq<Bytes>
    decreases |run|
  {
    if run == [] then [] else More(run[0], p) + ReadFrom(run[1..], p)
  }

  function More(a: Step, p: nat): seq<Bytes> {
    if a.LocalRead? && a.p == p then [a.data] else []
  }

  lemma {:induction false} ReadFromStep(run: seq<Step>, p: nat, got: seq<Bytes>)
    requires run != []
    ensures got + More(run[0], p) + ReadFrom(run[1..], p) == got + ReadFrom(run, p)
  {}

  /** The data of the frames that socket `p`'s pump has begun. */
  function WrittenBy(senders: seq<nat>, sent: seq<Datagram>, p: nat): seq<Bytes>
    requires |senders| == |sent|
  {
    if senders == [] then [] else
    var n := |senders| - 1;
    WrittenBy(senders[..n], sent[..n], p) + if senders[n] == p then [sent[n].data] else []
  }

  /** The replies read from `p` so far, given what its pump holds, are those it has written. */
  predicate InStep(s: State, p: nat, got: seq<Bytes>)
    requires |s.senders| == |s.down.sent|
  {
    var written := WrittenBy(s.senders, s.down.sent, p);
    if p >= |s.sockets| then got == [] && written == []
    else match s.sockets[p].pump
         case Reading => written == got
         case Got(data) => written + [data] == got
         case Writing(data, begun) => got == if begun then written else written + [data]
         case _ => written == got || (got != [] && written == got[..|got| - 1])
  }

  lemma {:induction false} NothingWritten(senders: seq<nat>, sent: seq<Datagram>, p: nat)
    requires |senders| == |sent| && forall j :: 0 <= j < |senders| ==> senders[j] != p
    ensures WrittenBy(senders, sent, p) == []
    decreases |senders|
  {
    if senders != [] {
      NothingWritten(senders[..|senders| - 1], sent[..|sent| - 1], p);
    }
  }

  /** What the pump that takes the lock has written: one frame more, unless the channel is broken. */
  lemma LockWrites(s: State, a: Step, p: nat)
    requires |s.senders| == |s.down.sent| && Enabled(s, a) && a.Lock?
    ensures
      var t := Next(s, a);
      && |t.senders| == |t.down.sent|
      && WrittenBy(t.senders, t.down.sent, p) ==
           WrittenBy(s.senders, s.down.sent, p)
           + if a.p == p && !s.broken then [s.sockets[p].pump.data] else []
  {
    var t, n := Next(s, a), |s.senders|;
    if !s.broken {
      assert t.senders[..n] == s.senders && t.down.sent[..n] == s.down.sent;
    } else {
      assert WrittenBy(s.senders, s.down.sent, p) + [] == WrittenBy(s.senders, s.down.sent, p);
    }
  }

  lemma LockPumps(s: State, a: Step, p: nat)
    requires Enabled(s, a) && a.Lock? && p < |s.sockets|
    ensures |Next(s, a).sockets| == |s.sockets|
    ensures Next(s, a).sockets[p].pump ==
      if a.p == p then Writing(s.sockets[p].pump.data, !s.broken) else s.sockets[p].pump
  {}

  lemma InStepLock(s: State, a: Step, p: nat, got: seq<Bytes>)
    requires ClientOk(s) && Enabled(s, a) && a.Lock? && InStep(s, p, got)
    ensures |Next(s, a).senders| == |Next(s, a).down.sent| && InStep(Next(s, a), p, got)
  {
    LockWrites(s, a, p);
    LockPumps(s, a, if p < |s.sockets| then p else a.p);
  }

  lemma InStepServer(s: State, a: Step, p: nat, got: seq<Bytes>)
    requires ClientOk(s) && Enabled(s, a) && ServerSide(a) && InStep(s, p, got)
    ensures |Next(s, a).senders| == |Next(s, a).down.sent| && InStep(Next(s, a), p, got)
  {
    ServerSideFrame(s, a);
  }

  lemma InStepRead(s: State, a: Step, p: nat, got: seq<Bytes>)
    requires ClientOk(s) && Enabled(s, a) && a.ClientRead? && InStep(s, p, got)
    ensures |Next(s, a).senders| == |Next(s, a).down.sent| && InStep(Next(s, a), p, got)
  {
    ClientReadFrame(s, a);
    ReadSockets(s, a);
  }

  /** The client's read loop adds at most one socket, with nothing read from it yet. */
  lemma ReadSockets(s: State, a: Step)
    requires Enabled(s, a) && a.ClientRead?
    ensures
      var t, from := Next(s, a), Arrived(s.up).value.0.from;
      t.sockets == s.sockets || t.sockets == s.sockets + [Socket(from, true, Reading)]
  {
    RouteSockets(s, s.(up := Pull(s.up)), Arrived(s.up).value.0.from, a.dialled, a.wrote);
  }

  lemma RouteSockets(s: State, at: State, from: Bytes, dialled: bool, wrote: bool)
    requires at.sockets == s.sockets
    ensures
      var t := Route(at, from, dialled, wrote);
      t.sockets == s.sockets || t.sockets == s.sockets + [Socket(from, true, Reading)]
  {
    if from in at.flows || !dialled {
      assert Route(at, from, dialled, wrote).sockets == s.sockets;
    } else {
      var read := Forward(at, if wrote then Some(|at.sockets|) else None);
      assert Route(at, from, dialled, wrote) == OpenSocket(read, from) && read.sockets == s.sockets;
    }
  }

  lemma SetPumpMoves(s: State, q: nat, pump: Pump, p: nat)
    requires q < |s.sockets| && p < |s.sockets|
    ensures |SetPump(s, q, pump).sockets| == |s.sockets|
    ensures SetPump(s, q, pump).sockets[p].pump == if q == p then pump else s.sockets[p].pump
  {}

  /** What the pump of socket `p` becomes. */
  function Moved(a: Step, p: nat, pump: Pump): Pump {
    match a
    case LocalRead(q, data) => if q == p then Got(data) else pump
    case LocalFail(q) => if q == p then Stopping else pump
    case Unlock(q) => if q == p then Reading else pump
    case WriteFail(q) => if q == p then Stopping else pump
    case CloseLocal(q) => if q == p then Stopped else pump
    case Forget(q) => if q == p then Exited else pump
    case _ => pump
  }

  lemma PumpMoves(s: State, a: Step, p: nat)
    requires Enabled(s, a) && !ServerSide(a) && !a.ClientRead? && !a.Lock? && p < |s.sockets|
    ensures |Next(s, a).sockets| == |s.sockets|
    ensures Next(s, a).sockets[p].pump == Moved(a, p, s.sockets[p].pump)
  {
    match a {
      case LocalRead(q, data) => SetPumpMoves(s, q, Got(data), p);
      case LocalFail(q) => SetPumpMoves(s, q, Stopping, p);
      case Unlock(q) => SetPumpMoves(s, q, Reading, p);
      case WriteFail(q) => SetPumpMoves(s, q, Stopping, p);
      case Forget(q) => SetPumpMoves(s, q, Exited, p);
      case _ =>
    }
  }

  lemma PumpSenders(s: State, a: Step)
    requires Enabled(s, a) && !ServerSide(a) && !a.ClientRead? && !a.Lock?
    ensures Next(s, a).senders == s.senders && |Next(s, a).sockets| == |s.sockets|
  {}

  lemma InStepPump(s: State, a: Step, p: nat, got: seq<Bytes>)
    requires ClientOk(s) && Enabled(s, a) && !ServerSide(a) && !a.ClientRead? && !a.Lock? && InStep(s, p, got)
    ensures |Next(s, a).senders| == |Next(s, a).down.sent|
    ensures InStep(Next(s, a), p, got + More(a, p))
  {
    PumpFrame(s, a);
    PumpSenders(s, a);
    assert got + [] == got;
    if p < |s.sockets| {
      PumpMoves(s, a, p);
      assert SocketOk(s, p, s.sockets[p]);
    }
  }

  lemma InStepNext(s: State, a: Step, p: nat, got: seq<Bytes>)
    requires ClientOk(s) && Enabled(s, a) && InStep(s, p, got)
    ensures |Next(s, a).senders| == |Next(s, a).down.sent|
    ensures InStep(Next(s, a), p, got + More(a, p))
  {
    assert got + [] == got;
    if ServerSide(a) {
      InStepServer(s, a, p, got);
    } else if a.ClientRead? {
      InStepRead(s, a, p, got);
    } else if a.Lock? {
      InStepLock(s, a, p, got);
    } else {
      InStepPump(s, a, p, got);
    }
  }

  predicate Tracks(s: State, p: nat, got: seq<Bytes>) {
    Inv(s) && InStep(s, p, got)
  }

  lemma {:induction false} TracksNext(s: State, a: Step, p: nat, got: seq<Bytes>)
    requires Tracks(s, p, got) && Enabled(s, a)
    ensures Tracks(Next(s, a), p, got + More(a, p))
  {
    InvStep(s, a);
    InStepNext(s, a, p, got);
  }

  lemma {:induction false} AlwaysTracks(s: State, run: seq<Step>, p: nat, got: seq<Bytes>)
    requires Tracks(s, p, got) && Runs(s, run)
    ensures Tracks(After(s, run), p, got + ReadFrom(run, p))
    decreases |run|
  {
    if run == [] {
      assert got + [] == got;
    } else {
      TracksNext(s, run[0], p, got);
      AlwaysTracks(Next(s, run[0]), run[1..], p, got + More(run[0], p));
      ReadFromStep(run, p, got);
    }
  }

  /**
   Each socket's pump frames the replies it reads once each and in order: all of them while it is reading, and
   all but at most the last when it has stopped.
   */
  lemma {:induction false} RepliesFramedInOrder(run: seq<Step>, p: nat)
    requires Runs(Initial, run)
    ensures
      var s := After(Initial, run);
      && |s.senders| == |s.down.sent|
      && var written, got := WrittenBy(s.senders, s.down.sent, p), ReadFrom(run, p);
         && written <= got && |got| <= |written| + 1
         && (p < |s.sockets| && s.sockets[p].pump == Reading ==> written == got)
  {
    AlwaysTracks(Initial, run, p, []);
    InStepMeans(After(Initial, run), p, [] + ReadFrom(run, p));
    assert [] + ReadFrom(run, p) == ReadFrom(run, p);
  }

  lemma InStepMeans(s: State, p: nat, got: seq<Bytes>)
    requires |s.senders| == |s.down.sent| && InStep(s, p, got)
    ensures
      var written := WrittenBy(s.senders, s.down.sent, p);
      && written <= got && |got| <= |written| + 1
      && (p < |s.sockets| && s.sockets[p].pump == Reading ==> written == got)
  {}

  // ------------------------------------------------------------------------
  // There and back
  // ------------------------------------------------------------------------

  /** Everything written has been read, and both ends are at work. */
  predicate Quiet(s: State) {
    && Inv(s) && s.serving && s.replying && !s.broken && !s.stopped && s.lock == None
    && AllRead(s.up) && AllRead(s.down)
  }

  predicate AllRead(w: Wire) {
    w.rest == [] && w.count == |w.sent|
  }

  /** A frame written in full onto a wire that has been read empties is the next to arrive. */
  lemma FrameArrives(w: Wire, d: Datagram)
    requires WireOk(w) && AllRead(w) && Fits(d)
    ensures
      var full := Push(Begin(w, d), |Encode(d)|);
      full.rest == [] && Arrived(full) == Some((d, |Encode(d)|)) && AllRead(Pull(full))
  {
    var full := Push(Begin(w, d), |Encode(d)|);
    assert w.sent[..w.count] == w.sent && w.bytes + [] == w.bytes;
    assert Encode(d)[..|Encode(d)|] == Encode(d);
    assert full.bytes[full.read..] == Encode(d) + [];
    DecodeEncode(d, []);
  }

  lemma {:induction false} Then(s: State, a: Step, rest: seq<Step>)
    requires Enabled(s, a) && Runs(Next(s, a), rest)
    ensures Runs(s, [a] + rest) && After(s, [a] + rest) == After(Next(s, a), rest)
  {
    assert ([a] + rest)[1..] == rest;
  }

  /** A visitor's datagram goes up and the client has it in its socket: a new one if its source has none. */
  lemma {:induction false} GoesUp(s: State, a: Addr, data: Bytes) returns (run: seq<Step>)
    requires Quiet(s) && |a.text| <= MAX && |data| <= MAX && a.text !in s.flows
    ensures Runs(s, run)
    ensures
      var t, n := After(s, run), |s.sockets|;
      && t == s.(seen := s.seen[a.text := a], heard := s.heard + {a}, up := t.up,
                 flows := s.flows[a.text := n], sockets := s.sockets + [Socket(a.text, true, Reading)],
                 forwarded := s.forwarded + [Some(n)])
      && AllRead(t.up)
  {
    var d := Datagram(a.text, data);
    var t := Next(s, Hear(a, data));
    var u := Next(t, PushUp(|Encode(d)|));
    FrameArrives(s.up, d);
    Then(u, ClientRead(true, true), []);
    Then(t, PushUp(|Encode(d)|), [ClientRead(true, true)] + []);
    Then(s, Hear(a, data), [PushUp(|Encode(d)|)] + ([ClientRead(true, true)] + []));
    run := [Hear(a, data)] + ([PushUp(|Encode(d)|)] + ([ClientRead(true, true)] + []));
  }

  /** A reply read from a socket is framed, under the lock. */
  lemma {:induction false} ReplyBegun(s: State, p: nat, reply: Bytes)
    requires !s.broken && s.lock == None && 0 < |reply| <= MAX
    requires p < |s.sockets| && s.sockets[p].open && s.sockets[p].pump == Reading
    ensures
      var run := [LocalRead(p, reply)] + ([Lock(p)] + []);
      && Runs(s, run)
      && After(s, run) == s.(down := Begin(s.down, Datagram(s.sockets[p].from, reply)), lock := Some(p),
                             sockets := s.sockets[p := s.sockets[p].(pump := Writing(reply, true))],
                             senders := s.senders + [p], replies := s.replies + {(p, reply)})
  {
    var t := Next(s, LocalRead(p, reply));
    Then(t, Lock(p), []);
    Then(s, LocalRead(p, reply), [Lock(p)] + []);
  }

  /** A frame begun is written in full, and the lock released. */
  lemma {:induction false} ReplyEnded(s: State, p: nat)
    requires !s.broken && s.lock == Some(p) && s.down.rest != [] && p < |s.sockets|
    requires s.sockets[p].pump.Writing? && s.sockets[p].pump.begun
    ensures
      var run := [PushDown(|s.down.rest|)] + ([Unlock(p)] + []);
      && Runs(s, run)
      && After(s, run) == s.(down := Push(s.down, |s.down.rest|), lock := None,
                             sockets := s.sockets[p := s.sockets[p].(pump := Reading)])
  {
    var n := |s.down.rest|;
    var t := Next(s, PushDown(n));
    Then(t, Unlock(p), []);
    Then(s, PushDown(n), [Unlock(p)] + []);
  }

  /** A reply read from a socket is framed and written in full. */
  lemma {:induction false} ReplyWritten(s: State, p: nat, reply: Bytes) returns (run: seq<Step>)
    requires !s.broken && s.lock == None && 0 < |reply| <= MAX
    requires p < |s.sockets| && s.sockets[p].open && s.sockets[p].pump == Reading
    ensures Runs(s, run)
    ensures
      var d := Datagram(s.sockets[p].from, reply);
      After(s, run) == s.(down := Push(Begin(s.down, d), |Encode(d)|),
                          senders := s.senders + [p], replies := s.replies + {(p, reply)})
  {
    var first := [LocalRead(p, reply)] + ([Lock(p)] + []);
    ReplyBegun(s, p, reply);
    var t := After(s, first);
    ReplyEnded(t, p);
    var second := [PushDown(|t.down.rest|)] + ([Unlock(p)] + []);
    RunsConcat(s, first, second);
    run := first + second;
    assert After(t, second).sockets == s.sockets;
  }

  /** A reply read from a socket comes down and is delivered to the address its source was heard from. */
  lemma {:induction false} ComesDown(s: State, p: nat, reply: Bytes) returns (run: seq<Step>)
    requires WireOk(s.down) && AllRead(s.down) && s.replying && !s.broken && s.lock == None
    requires p < |s.sockets| && s.sockets[p].open && s.sockets[p].pump == Reading
    requires |s.sockets[p].from| <= MAX && s.sockets[p].from in s.seen && 0 < |reply| <= MAX
    ensures Runs(s, run)
    ensures
      var t, d := After(s, run), Datagram(s.sockets[p].from, reply);
      && t.delivered == s.delivered + [Delivery(s.seen[d.from], d)]
      && t.forwarded == s.forwarded && t.sockets == s.sockets && t.lock == None && AllRead(t.down)
  {
    var first := ReplyWritten(s, p, reply);
    FrameArrives(s.down, Datagram(s.sockets[p].from, reply));
    var t := After(s, first);
    Then(t, ServerRead(true), []);
    RunsConcat(s, first, [ServerRead(true)] + []);
    run := first + ([ServerRead(true)] + []);
  }

  lemma {:induction false} RunsConcat(s: State, first: seq<Step>, second: seq<Step>)
    requires Runs(s, first) && Runs(After(s, first), second)
    ensures Runs(s, first + second) && After(s, first + second) == After(After(s, first), second)
    decreases |first|
  {
    if first == [] {
      assert first + second == second;
    } else {
      RunsConcat(Next(s, first[0]), first[1..], second);
      Then(s, first[0], first[1..] + second);
      assert first + second == [first[0]] + (first[1..] + second);
    }
  }

  /** Any datagram of a new visitor can reach a socket of its own, and any reply from there that visitor. */
  lemma {:induction false} ThereAndBack(s: State, a: Addr, data: Bytes, reply: Bytes) returns (run: seq<Step>)
    requires Quiet(s) && |a.text| <= MAX && |data| <= MAX && a.text !in s.flows && 0 < |reply| <= MAX
    ensures Runs(s, run)
    ensures
      var t, n := After(s, run), |s.sockets|;
      && n < |t.sockets| && t.sockets[n].from == a.text && t.forwarded == s.forwarded + [Some(n)]
      && t.delivered == s.delivered + [Delivery(a, Datagram(a.text, reply))]
  {
    var up := GoesUp(s, a, data);
    var down := ComesDown(After(s, up), |s.sockets|, reply);
    RunsConcat(s, up, down);
    run := up + down;
  }

  // ------------------------------------------------------------------------
  // Ends
  // ------------------------------------------------------------------------

  lemma SilentStep(s: State, a: Step)
    requires !s.replying && Enabled(s, a)
    ensures !Next(s, a).replying && Next(s, a).delivered == s.delivered
  {
    if ServerSide(a) {
      ServerSideFrame(s, a);
    } else {
      ClientSideFrame(s, a);
    }
  }

  lemma {:induction false} StaysSilent(s: State, run: seq<Step>)
    requires !s.replying && Runs(s, run)
    ensures After(s, run).delivered == s.delivered
    decreases |run|
  {
    if run != [] {
      SilentStep(s, run[0]);
      StaysSilent(Next(s, run[0]), run[1..]);
    }
  }

  /** When the server's reply loop has ended, nothing more is delivered. */
  lemma {:induction false} NothingDeliveredAfterStop(s: State, run: seq<Step>)
    requires Enabled(s, ServerStop) && Runs(Next(s, ServerStop), run)
    ensures After(Next(s, ServerStop), run).delivered == s.delivered
  {
    StaysSilent(Next(s, ServerStop), run);
  }

  predicate AllShut(s: State) {
    s.stopped && forall p :: 0 <= p < |s.sockets| ==> !s.sockets[p].open
  }

  lemma StopShuts(s: State)
    requires ClientOk(s) && Enabled(s, ClientStop)
    ensures AllShut(Next(s, ClientStop))
  {
    forall p | 0 <= p < |s.sockets|
      ensures !Shut(s, p).open
    {
      assert SocketOk(s, p, s.sockets[p]);
    }
  }

  lemma ShutStep(s: State, a: Step)
    requires AllShut(s) && Enabled(s, a)
    ensures AllShut(Next(s, a))
  {
    if ServerSide(a) {
      ServerSideFrame(s, a);
    }
  }

  lemma {:induction false} StaysShut(s: State, run: seq<Step>)
    requires AllShut(s) && Runs(s, run)
    ensures AllShut(After(s, run))
    decreases |run|
  {
    if run != [] {
      ShutStep(s, run[0]);
      StaysShut(Next(s, run[0]), run[1..]);
    }
  }

  lemma {:induction false} NothingReadWhenShut(s: State, run: seq<Step>, p: nat)
    requires AllShut(s) && Runs(s, run)
    ensures ReadFrom(run, p) == []
    decreases |run|
  {
    if run != [] {
      ShutStep(s, run[0]);
      NothingReadWhenShut(Next(s, run[0]), run[1..], p);
    }
  }

  /** When the client's read loop has ended no local socket is open, or read from, then or ever after. */
  lemma {:induction false} NoSocketOutlivesClient(run: seq<Step>, more: seq<Step>, p: nat)
    requires Runs(Initial, run) && Enabled(After(Initial, run), ClientStop)
    requires Runs(Next(After(Initial, run), ClientStop), more)
    ensures AllShut(After(Next(After(Initial, run), ClientStop), more)) && ReadFrom(more, p) == []
  {
    AlwaysInv(Initial, run);
    StopShuts(After(Initial, run));
    StaysShut(Next(After(Initial, run), ClientStop), more);
    NothingReadWhenShut(Next(After(Initial, run), ClientStop), more, p);
  }

  /** A datagram that finds the channel broken, or is too large, is still heard; it ends the server's loop. */
  lemma UnframedEndsLoop(s: State, a: Addr, data: Bytes)
    requires s.serving && s.up.rest == [] && (s.broken || |a.text| > 65535 || |data| > 65535)
    ensures
      Enabled(s, Hear(a, data)) && var t := Next(s, Hear(a, data));
      t == s.(seen := s.seen[a.text := a], heard := s.heard + {a}, serving := false)
  {}

  /** A pump that stops closes its socket and frees its source, which a later datagram may dial anew. */
  lemma {:induction false} PumpWindsDown(s: State, a: Step, p: nat) returns (run: seq<Step>)
    requires ClientOk(s) && p < |s.sockets|
    requires (a == LocalFail(p) && s.sockets[p].pump == Reading)
             || (a == WriteFail(p) && s.lock == Some(p) && s.broken)
    ensures run != [] && run[0] == a && Runs(s, run)
    ensures
      var t, from := After(s, run), s.sockets[p].from;
      && p < |t.sockets| && !t.sockets[p].open && t.sockets[p].pump == Exited
      && t.flows == s.flows - {from} && forall q: nat :: !Lives(t, q, from)
  {
    var t := Next(s, a);
    var u := Next(t, CloseLocal(p));
    Then(u, Forget(p), []);
    Then(t, CloseLocal(p), [Forget(p)] + []);
    Then(s, a, [CloseLocal(p)] + ([Forget(p)] + []));
    run := [a] + ([CloseLocal(p)] + ([Forget(p)] + []));
    ClientStep(s, a);
    ClientStep(t, CloseLocal(p));
    ClientStep(u, Forget(p));
    LivesIff(Next(u, Forget(p)), s.sockets[p].from);
    assert SocketOk(s, p, s.sockets[p]);
  }

  predicate PumpDone(s: State, p: nat) {
    p < |s.sockets| && (s.sockets[p].pump == Stopping || s.sockets[p].pump == Stopped || s.sockets[p].pump == Exited)
  }

  lemma DoneStep(s: State, a: Step, p: nat)
    requires PumpDone(s, p) && Enabled(s, a)
    ensures PumpDone(Next(s, a), p) && !(a.LocalRead? && a.p == p)
  {
    if ServerSide(a) {
      ServerSideFrame(s, a);
    } else if a.ClientRead? {
      ReadSockets(s, a);
    } else if a.Lock? {
      LockPumps(s, a, p);
    } else {
      PumpMoves(s, a, p);
    }
  }

  lemma {:induction false} NothingReadOnceDone(s: State, run: seq<Step>, p: nat)
    requires PumpDone(s, p) && Runs(s, run)
    ensures ReadFrom(run, p) == []
    decreases |run|
  {
    if run != [] {
      DoneStep(s, run[0], p);
      NothingReadOnceDone(Next(s, run[0]), run[1..], p);
    }
  }

  /** A pump whose socket failed, or whose write failed, got nothing more. */
  lemma {:induction false} PumpStopsForGood(s: State, a: Step, run: seq<Step>, p: nat)
    requires Enabled(s, a) && (a == LocalFail(p) || a == WriteFail(p)) && Runs(Next(s, a), run)
    ensures ReadFrom(run, p) == []
  {
    NothingReadOnceDone(Next(s, a), run, p);
  }

  /** The client never has two open local sockets for one source. */
  lemma {:induction false} OneSocketPerSource(run: seq<Step>, p: nat, q: nat)
    requires Runs(Initial, run)
    requires p < |After(Initial, run).sockets| && q < |After(Initial, run).sockets|
    requires After(Initial, run).sockets[p].open && After(Initial, run).sockets[q].open
    requires After(Initial, run).sockets[p].from == After(Initial, run).sockets[q].from
    ensures p == q
  {
    AlwaysInv(Initial, run);
    var s := After(Initial, run);
    assert SocketOk(s, p, s.sockets[p]) && SocketOk(s, q, s.sockets[q]);
  }
}
