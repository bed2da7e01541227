/**
 The rathole server's control channels, data channels and visitors, as a step system.
 Each select arm, each critical section and each command on the control connection is
 one step; every interleaving of steps is a run.
 */
module Tunnel {
  import opened Basics

  type Nonce = Bytes
  type Key = Bytes

  const WARM: nat := 2       // tcpPoolWarm
  const REQUESTS: nat := 64  // capacity of reqCh
  const POOL: nat := 16      // capacity of dataCh

  datatype Phase = Warming(sent: nat) | Running | Retiring | Left | Gone

  /**
   One connected client.  `requests` is the number of tokens in reqCh, `pool` is dataCh.
   `inFlight` counts the CreateDataChannel commands on their way to the client.  The last
   four fields count events and are read by no step:  requests dropped on a full queue,
   channels that failed or were closed unclaimed, visitors that gave up, and channels
   offered to this client without an answering command.
   */
  datatype Control = Control(
    nonce: Nonce, key: Key, phase: Phase, closed: bool,
    requests: nat, pool: seq<nat>, inFlight: nat,
    dropped: nat, failed: nat, gaveUp: nat, uninvited: nat)

  /** The goroutine that routes one data channel: before the lookup, in the select, or returned. */
  datatype Router = Presented | Offering(cc: nat) | Returned

  /** A data channel; `origin` is the client whose command it answers, if any. */
  datatype Conn = Conn(key: Key, origin: Option<nat>, router: Router, closed: bool)

  datatype Visitor =
    | Snapshot(cc: nat)              // has read the slot, has not yet posted its request
    | Waiting(cc: nat)
    | Holding(cc: nat, conn: nat)
    | Finished

  datatype State = State(
    current: Option<nat>, controls: seq<Control>, conns: seq<Conn>, visitors: seq<Visitor>)

  datatype Step =
    | Install(nonce: Nonce, auth: Key)  // handshake accepted, first critical section
    | Warm(i: nat)                      // one pre-warm send
    | SendCommand(i: nat)               // runControl: request taken, command written
    | FailCommand(i: nat)               // runControl: request taken, write failed
    | Exit(i: nat)                      // runControl: any other return
    | Leave(i: nat)                     // second critical section
    | Close(i: nat)
    | Answer(i: nat)                    // the client opens a channel for one command
    | Forfeit(i: nat)                   // a command that never becomes a channel
    | Intrude(key: Key)                 // a channel opened without a command
    | Lookup(d: nat)                    // routeDataChannel: critical section and key check
    | Enqueue(d: nat)
    | Unclaimed(d: nat)                 // routeDataChannel: closed or timed out
    | Arrive                            // acquireDataChannel: critical section
    | Post(v: nat)                      // acquireDataChannel: non-blocking request
    | Take(v: nat)
    | GiveUp(v: nat)                    // acquireDataChannel: closed or timed out
    | Release(v: nat)                   // the visitor is done and closes its channel

  const Initial := State(None, [], [], [])

  function Fresh(nonce: Nonce, key: Key): Control {
    Control(nonce, key, Warming(0), false, 0, [], 0, 0, 0, 0, 0)
  }

  /** When the goroutine concerned is ready to take the step. */
  predicate Guard(s: State, a: Step) {
    match a
    case Install(_, _) => true
    case Warm(i) =>
      i < |s.controls| && s.controls[i].phase.Warming? && s.controls[i].requests < REQUESTS
    case SendCommand(i) =>
      i < |s.controls| && s.controls[i].phase == Running && s.controls[i].requests > 0
    case FailCommand(i) =>
      i < |s.controls| && s.controls[i].phase == Running && s.controls[i].requests > 0
    case Exit(i) => i < |s.controls| && s.controls[i].phase == Running
    case Leave(i) => i < |s.controls| && s.controls[i].phase == Retiring
    case Close(i) => i < |s.controls| && s.controls[i].phase == Left
    case Answer(i) => i < |s.controls| && s.controls[i].inFlight > 0
    case Forfeit(i) => i < |s.controls| && s.controls[i].inFlight > 0
    case Intrude(_) => true
    case Lookup(d) => d < |s.conns| && s.conns[d].router == Presented
    case Enqueue(d) =>
      d < |s.conns| && s.conns[d].router.Offering? && s.conns[d].router.cc < |s.controls|
      && |s.controls[s.conns[d].router.cc].pool| < POOL
    case Unclaimed(d) =>
      d < |s.conns| && s.conns[d].router.Offering? && s.conns[d].router.cc < |s.controls|
    case Arrive => s.current.Some?
    case Post(v) => v < |s.visitors| && s.visitors[v].Snapshot? && s.visitors[v].cc < |s.controls|
    case Take(v) =>
      v < |s.visitors| && s.visitors[v].Waiting? && s.visitors[v].cc < |s.controls|
      && s.controls[s.visitors[v].cc].pool != []
    case GiveUp(v) => v < |s.visitors| && s.visitors[v].Waiting? && s.visitors[v].cc < |s.controls|
    case Release(v) => v < |s.visitors| && s.visitors[v].Holding? && s.visitors[v].conn < |s.conns|
  }

  /** `h` is sha256(token || nonce) as a function of the nonce: the handshake accepts no other answer. */
  predicate Enabled(h: Nonce -> Key, s: State, a: Step) {
    Guard(s, a) && (a.Install? ==> a.auth == h(a.nonce))
  }

  function SetControl(s: State, i: nat, c: Control): State
    requires i < |s.controls|
  {
    s.(controls := s.controls[i := c])
  }

  function SetConn(s: State, d: nat, c: Conn): State
    requires d < |s.conns|
  {
    s.(conns := s.conns[d := c])
  }

  function SetVisitor(s: State, v: nat, x: Visitor): State
    requires v < |s.visitors|
  {
    s.(visitors := s.visitors[v := x])
  }

  /** Books one failed channel against the client `o`, if there is one. */
  function Fail(s: State, o: Option<nat>): State {
    if o.Some? && o.value < |s.controls|
    then SetControl(s, o.value, s.controls[o.value].(failed := s.controls[o.value].failed + 1))
    else s
  }

  function Admit(s: State, j: nat): State
    requires j < |s.controls|
  {
    SetControl(s, j, s.controls[j].(uninvited := s.controls[j].uninvited + 1))
  }

  function InstallNext(s: State, nonce: Nonce, key: Key): State {
    var controls := if s.current.Some? && s.current.value < |s.controls|
                    then s.controls[s.current.value := s.controls[s.current.value].(closed := true)]
                    else s.controls;
    s.(current := Some(|controls|), controls := controls + [Fresh(nonce, key)])
  }

  function LookupNext(s: State, d: nat): State
    requires d < |s.conns|
  {
    var c := s.conns[d];
    if s.current.Some? && s.current.value < |s.controls| && s.controls[s.current.value].key == c.key then
      var j := s.current.value;
      var offered := SetConn(s, d, c.(router := Offering(j)));
      if c.origin == Some(j) then offered else Admit(Fail(offered, c.origin), j)
    else
      Fail(SetConn(s, d, c.(router := Returned, closed := true)), c.origin)
  }

  function Next(s: State, a: Step): State
    requires Guard(s, a)
  {
    match a
    case Install(nonce, auth) => InstallNext(s, nonce, auth)
    case Warm(i) =>
      var c := s.controls[i];
      SetControl(s, i, c.(requests := c.requests + 1,
                          phase := if c.phase.sent + 1 >= WARM then Running else Warming(c.phase.sent + 1)))
    case SendCommand(i) =>
      var c := s.controls[i];
      SetControl(s, i, c.(requests := c.requests - 1, inFlight := c.inFlight + 1))
    case FailCommand(i) =>
      var c := s.controls[i];
      SetControl(s, i, c.(requests := c.requests - 1, failed := c.failed + 1, phase := Retiring))
    case Exit(i) => SetControl(s, i, s.controls[i].(phase := Retiring))
    case Leave(i) =>
      SetControl(s, i, s.controls[i].(phase := Left))
        .(current := if s.current == Some(i) then None else s.current)
    case Close(i) => SetControl(s, i, s.controls[i].(phase := Gone, closed := true))
    case Answer(i) =>
      var c := s.controls[i];
      SetControl(s, i, c.(inFlight := c.inFlight - 1))
        .(conns := s.conns + [Conn(c.key, Some(i), Presented, false)])
    case Forfeit(i) =>
      var c := s.controls[i];
      SetControl(s, i, c.(inFlight := c.inFlight - 1, failed := c.failed + 1))
    case Intrude(key) => s.(conns := s.conns + [Conn(key, None, Presented, false)])
    case Lookup(d) => LookupNext(s, d)
    case Enqueue(d) =>
      var i := s.conns[d].router.cc;
      SetControl(SetConn(s, d, s.conns[d].(router := Returned)),
                 i, s.controls[i].(pool := s.controls[i].pool + [d]))
    case Unclaimed(d) =>
      Fail(SetConn(s, d, s.conns[d].(router := Returned, closed := true)), Some(s.conns[d].router.cc))
    case Arrive => s.(visitors := s.visitors + [Snapshot(s.current.value)])
    case Post(v) =>
      var i := s.visitors[v].cc;
      var c := s.controls[i];
      SetControl(SetVisitor(s, v, Waiting(i)), i,
                 if c.requests < REQUESTS then c.(requests := c.requests + 1)
                 else c.(dropped := c.dropped + 1))
    case Take(v) =>
      var i := s.visitors[v].cc;
      var c := s.controls[i];
      SetControl(SetVisitor(s, v, Holding(i, c.pool[0])), i, c.(pool := c.pool[1..]))
    case GiveUp(v) =>
      var i := s.visitors[v].cc;
      var c := s.controls[i];
      SetControl(SetVisitor(s, v, Finished), i, c.(gaveUp := c.gaveUp + 1))
    case Release(v) =>
      var d := s.visitors[v].conn;
      SetConn(SetVisitor(s, v, Finished), d, s.conns[d].(closed := true))
  }

  predicate Runs(h: Nonce -> Key, s: State, run: seq<Step>)
    decreases |run|
  {
    run == [] || (Enabled(h, s, run[0]) && Runs(h, Next(s, run[0]), run[1..]))
  }

  function After(h: Nonce -> Key, s: State, run: seq<Step>): State
    requires Runs(h, s, run)
    decreases |run|
  {
    if run == [] then s else After(h, Next(s, run[0]), run[1..])
  }
}
