/**
 The SOCKS5 client (`Negotiate`) and server (`handle`) as two parties that exchange bytes
 over a connection: sections 3 to 6 of RFC 1928 and section 2 of RFC 1929.
 */
module SocksParties {
  import opened Basics

  const VER: byte := 5
  const NONE: byte := 0
  const USERPASS: byte := 2
  const NO_METHOD: byte := 255
  const CONNECT: byte := 1
  const ASSOCIATE: byte := 3
  const IPV4: byte := 1
  const NAME: byte := 3
  const IPV6: byte := 4

  /** A destination address; IP addresses keep their bytes, their printed form is not modelled. */
  datatype Host = Name(name: Bytes) | Ip(ip: Bytes)

  /** What the protocol can name: a host name of at most 255 bytes, an IPv4 or an IPv6 address. */
  predicate Expressible(h: Host) {
    match h
    case Name(name) => |name| <= 255
    case Ip(ip) => |ip| == 4 || |ip| == 16
  }

  /** An address as the protocol writes it: its type, a length if it is a name, and its bytes. */
  function Address(h: Host): Bytes
    requires Expressible(h)
  {
    match h
    case Name(name) => [NAME, |name|] + name
    case Ip(ip) => [if |ip| == 4 then IPV4 else IPV6] + ip
  }

  /** What the client was asked to do, and how the server and the network answer. */
  datatype Setup = Setup(
    user: Bytes, pass: Bytes, host: Bytes, port: int,
    auth: Option<(Bytes, Bytes) -> bool>, dial: (Host, int) -> bool)

  function LowByte(n: nat): byte {
    n % 256
  }

  // ------------------------------------------------------------------------
  // The client
  // ------------------------------------------------------------------------

  datatype Client =
    | Start
    | AwaitMethod
    | AwaitVerdict
    | AwaitHead
    | AwaitBoundLen
    | AwaitBound(n: nat)
    | Connected
    | Rejected

  predicate NoAuth(c: Setup) {
    c.user == [] && c.pass == []
  }

  function Wanted(c: Setup): byte {
    if NoAuth(c) then NONE else USERPASS
  }

  function Greeting(c: Setup): Bytes {
    [VER, 1, Wanted(c)]
  }

  function Credentials(c: Setup): Bytes {
    [1, LowByte(|c.user|)] + (c.user + ([LowByte(|c.pass|)] + c.pass))
  }

  function Request(c: Setup): Bytes {
    [VER, CONNECT, 0, NAME] + ([LowByte(|c.host|)] + (c.host + PutU16(c.port)))
  }

  /** The bytes the next ReadFull asks for. */
  function ClientNeeds(p: Client): nat {
    match p
    case AwaitMethod => 2
    case AwaitVerdict => 2
    case AwaitHead => 4
    case AwaitBoundLen => 1
    case AwaitBound(n) => n
    case _ => 0
  }

  /** What the client does with the bytes of a completed read: its next state and what it writes. */
  function ClientMove(c: Setup, p: Client, b: Bytes): (Client, Bytes)
    requires |b| == ClientNeeds(p)
  {
    match p
    case Start => (AwaitMethod, Greeting(c))
    case AwaitMethod =>
      if b[0] != VER || b[1] != Wanted(c) then (Rejected, [])
      else if NoAuth(c) then (AwaitHead, Request(c))
      else (AwaitVerdict, Credentials(c))
    case AwaitVerdict => if b[1] != 0 then (Rejected, []) else (AwaitHead, Request(c))
    case AwaitHead =>
      if b[1] != 0 then (Rejected, [])
      else if b[3] == IPV4 then (AwaitBound(6), [])
      else if b[3] == IPV6 then (AwaitBound(18), [])
      else if b[3] == NAME then (AwaitBoundLen, [])
      else (Rejected, [])
    case AwaitBoundLen => (AwaitBound(b[0] as int + 2), [])
    case AwaitBound(_) => (Connected, [])
    case Connected => (Connected, [])
    case Rejected => (Rejected, [])
  }

  // ------------------------------------------------------------------------
  // The server
  // ------------------------------------------------------------------------

  datatype Server =
    | AwaitGreeting
    | AwaitMethods(n: nat)
    | AwaitAuthHead
    | AwaitUser(n: nat)
    | AwaitPassLen(user: Bytes)
    | AwaitPass(user: Bytes, n: nat)
    | AwaitRequest
    | AwaitHostLen(cmd: byte)
    | AwaitHost(cmd: byte, n: nat)
    | AwaitIp(cmd: byte, n: nat)
    | AwaitPort(cmd: byte, host: Host)
    | Dialing(host: Host, port: int)
    | Piping(host: Host, port: int)
    | Relaying
    | Closed

  function Answer(code: byte): Bytes {
    [VER, code, 0, IPV4, 0, 0, 0, 0, 0, 0]
  }

  function ServerNeeds(p: Server): nat {
    match p
    case AwaitGreeting => 2
    case AwaitMethods(n) => n
    case AwaitAuthHead => 2
    case AwaitUser(n) => n
    case AwaitPassLen(_) => 1
    case AwaitPass(_, n) => n
    case AwaitRequest => 4
    case AwaitHostLen(_) => 1
    case AwaitHost(_, n) => n
    case AwaitIp(_, n) => n
    case AwaitPort(_, _) => 2
    case _ => 0
  }

  function ServerMove(c: Setup, p: Server, b: Bytes): (Server, Bytes)
    requires |b| == ServerNeeds(p)
  {
    match p
    case AwaitGreeting => if b[0] != VER then (Closed, []) else (AwaitMethods(b[1]), [])
    case AwaitMethods(_) =>
      var m := if c.auth.None? then NONE else USERPASS;
      if m !in b then (Closed, [VER, NO_METHOD])
      else (if c.auth.None? then AwaitRequest else AwaitAuthHead, [VER, m])
    case AwaitAuthHead => if b[0] != 1 then (Closed, [1, 1]) else (AwaitUser(b[1]), [])
    case AwaitUser(_) => (AwaitPassLen(b), [])
    case AwaitPassLen(user) => (AwaitPass(user, b[0]), [])
    case AwaitPass(user, _) =>
      if c.auth.Some? && c.auth.value(user, b) then (AwaitRequest, [1, 0]) else (Closed, [1, 1])
    case AwaitRequest =>
      if b[0] != VER then (Closed, Answer(7))
      else if b[3] == IPV4 then (AwaitIp(b[1], 4), [])
      else if b[3] == IPV6 then (AwaitIp(b[1], 16), [])
      else if b[3] == NAME then (AwaitHostLen(b[1]), [])
      else (Closed, Answer(8))
    case AwaitHostLen(cmd) => (AwaitHost(cmd, b[0]), [])
    case AwaitHost(cmd, _) => (AwaitPort(cmd, Name(b)), [])
    case AwaitIp(cmd, _) => (AwaitPort(cmd, Ip(b)), [])
    case AwaitPort(cmd, host) =>
      if cmd == CONNECT then (Dialing(host, GetU16(b)), [])
      else if cmd == ASSOCIATE then (Relaying, [])
      else (Closed, Answer(7))
    case Dialing(host, port) => if c.dial(host, port) then (Piping(host, port), Answer(0)) else (Closed, Answer(5))
    case Piping(_, _) => (p, [])
    case Relaying => (p, [])
    case Closed => (p, [])
  }

  /** What the server says when a read meets the end of the stream. */
  function EofAnswer(p: Server): Bytes {
    match p
    case AwaitAuthHead => [1, 1]
    case AwaitUser(_) => [1, 1]
    case AwaitPassLen(_) => [1, 1]
    case AwaitPass(_, _) => [1, 1]
    case AwaitRequest => Answer(7)
    case AwaitHostLen(_) => Answer(8)
    case AwaitHost(_, _) => Answer(8)
    case AwaitIp(_, _) => Answer(8)
    case AwaitPort(_, _) => Answer(1)
    case _ => []
  }

  // ------------------------------------------------------------------------
  // The two together
  // ------------------------------------------------------------------------

  /** `checked` and `dialed` record the calls of the credential check and of the dialler. */
  datatype State = State(
    client: Client, server: Server, toServer: Bytes, toClient: Bytes,
    checked: seq<(Bytes, Bytes)>, dialed: seq<(Host, int)>)

  const Initial := State(Start, AwaitGreeting, [], [], [], [])

  datatype Step = ClientStep | ServerStep | ClientEof | ServerEof

  predicate ClientDone(s: State) {
    s.client == Connected || s.client == Rejected
  }

  predicate ServerDone(s: State) {
    s.server.Piping? || s.server.Relaying? || s.server == Closed
  }

  /** A read that meets the end of the stream fails; a party that fails closes its end. */
  predicate Enabled(s: State, a: Step) {
    match a
    case ClientStep => !ClientDone(s) && ClientNeeds(s.client) <= |s.toClient|
    case ServerStep => !ServerDone(s) && ServerNeeds(s.server) <= |s.toServer|
    case ClientEof => !ClientDone(s) && |s.toClient| < ClientNeeds(s.client) && s.server == Closed
    case ServerEof => !ServerDone(s) && |s.toServer| < ServerNeeds(s.server) && s.client == Rejected
  }

  function Next(c: Setup, s: State, a: Step): State
    requires Enabled(s, a)
  {
    match a
    case ClientStep =>
      var n := ClientNeeds(s.client);
      var (p, out) := ClientMove(c, s.client, s.toClient[..n]);
      s.(client := p, toClient := s.toClient[n..], toServer := s.toServer + out)
    case ServerStep =>
      var n := ServerNeeds(s.server);
      var b := s.toServer[..n];
      var (p, out) := ServerMove(c, s.server, b);
      s.(server := p, toServer := s.toServer[n..], toClient := s.toClient + out,
         checked := if s.server.AwaitPass? then s.checked + [(s.server.user, b)] else s.checked,
         dialed := if s.server.Dialing? then s.dialed + [(s.server.host, s.server.port)] else s.dialed)
    case ClientEof => s.(client := Rejected)
    case ServerEof => s.(server := Closed, toClient := s.toClient + EofAnswer(s.server))
  }

  predicate Runs(c: Setup, s: State, run: seq<Step>)
    decreases |run|
  {
    run == [] || (Enabled(s, run[0]) && Runs(c, Next(c, s, run[0]), run[1..]))
  }

  function After(c: Setup, s: State, run: seq<Step>): State
    requires Runs(c, s, run)
    decreases |run|
  {
    if run == [] then s else After(c, Next(c, s, run[0]), run[1..])
  }

  // ------------------------------------------------------------------------
  // Where the two parties can stand
  // ------------------------------------------------------------------------

  /** The client's inputs fit the one-byte lengths and the two-byte port of the protocol. */
  predicate Fits(c: Setup) {
    |c.user| <= 255 && |c.pass| <= 255 && |c.host| <= 255 && 0 <= c.port < 65536
  }

  predicate MethodAccepted(c: Setup) {
    c.auth.None? <==> NoAuth(c)
  }

  predicate CredentialsAccepted(c: Setup) {
    c.auth.Some? ==> c.auth.value(c.user, c.pass)
  }

  predicate Authorised(c: Setup) {
    MethodAccepted(c) && CredentialsAccepted(c)
  }

  predicate Accepted(c: Setup) {
    Authorised(c) && c.dial(Name(c.host), c.port)
  }

  function Checks(c: Setup): seq<(Bytes, Bytes)> {
    if NoAuth(c) then [] else [(c.user, c.pass)]
  }

  /** The greeting is on its way, being read, or answered. */
  predicate Greeted(c: Setup, s: State) {
    && s.checked == [] && s.dialed == []
    && match s.server
       case AwaitGreeting => s.toServer == Greeting(c) && s.toClient == []
       case AwaitMethods(n) => n == 1 && s.toServer == [Wanted(c)] && s.toClient == []
       case AwaitRequest => NoAuth(c) && c.auth.None? && s.toServer == [] && s.toClient == [VER, NONE]
       case AwaitAuthHead => !NoAuth(c) && c.auth.Some? && s.toServer == [] && s.toClient == [VER, USERPASS]
       case Closed => !MethodAccepted(c) && s.toServer == [] && s.toClient == [VER, NO_METHOD]
       case _ => false
  }

  predicate SentCredentials(c: Setup, s: State) {
    && !NoAuth(c) && c.auth.Some? && s.dialed == []
    && match s.server
       case AwaitAuthHead => s.checked == [] && s.toServer == Credentials(c) && s.toClient == []
       case AwaitUser(n) =>
         s.checked == [] && n == |c.user| && s.toServer == c.user + ([LowByte(|c.pass|)] + c.pass) && s.toClient == []
       case AwaitPassLen(user) =>
         s.checked == [] && user == c.user && s.toServer == [LowByte(|c.pass|)] + c.pass && s.toClient == []
       case AwaitPass(user, n) =>
         s.checked == [] && user == c.user && n == |c.pass| && s.toServer == c.pass && s.toClient == []
       case AwaitRequest =>
         Authorised(c) && s.checked == Checks(c) && s.toServer == [] && s.toClient == [1, 0]
       case Closed =>
         !CredentialsAccepted(c) && s.checked == Checks(c) && s.toServer == [] && s.toClient == [1, 1]
       case _ => false
  }

  predicate SentRequest(c: Setup, s: State) {
    && Authorised(c) && s.checked == Checks(c)
    && match s.server
       case AwaitRequest => s.dialed == [] && s.toServer == Request(c) && s.toClient == []
       case AwaitHostLen(cmd) =>
         && s.dialed == [] && cmd == CONNECT && s.toClient == []
         && s.toServer == [LowByte(|c.host|)] + (c.host + PutU16(c.port))
       case AwaitHost(cmd, n) =>
         s.dialed == [] && cmd == CONNECT && n == |c.host| && s.toServer == c.host + PutU16(c.port) && s.toClient == []
       case AwaitPort(cmd, host) =>
         s.dialed == [] && cmd == CONNECT && host == Name(c.host) && s.toServer == PutU16(c.port) && s.toClient == []
       case Dialing(host, port) =>
         s.dialed == [] && host == Name(c.host) && port == c.port && s.toServer == [] && s.toClient == []
       case Piping(host, port) =>
         Accepted(c) && Tunnelled(c, s) && s.toClient == Answer(0)
       case Closed =>
         !Accepted(c) && s.dialed == [(Name(c.host), c.port)] && s.toServer == [] && s.toClient == Answer(5)
       case _ => false
  }

  /** The server has checked exactly the client's credentials and dialled exactly its target. */
  predicate Tunnelled(c: Setup, s: State) {
    && s.server == Piping(Name(c.host), c.port) && s.toServer == []
    && s.checked == Checks(c) && s.dialed == [(Name(c.host), c.port)]
  }

  predicate Inv(c: Setup, s: State) {
    match s.client
    case Start => s == Initial
    case AwaitMethod => Greeted(c, s)
    case AwaitVerdict => SentCredentials(c, s)
    case AwaitHead => SentRequest(c, s)
    case AwaitBoundLen => false
    case AwaitBound(n) => n == 6 && Accepted(c) && Tunnelled(c, s) && s.toClient == Answer(0)[4..]
    case Connected => Accepted(c) && Tunnelled(c, s) && s.toClient == []
    case Rejected => !Accepted(c) && s.server == Closed && s.toServer == []
  }

  lemma GreetedStep(c: Setup, s: State, a: Step)
    requires Fits(c) && s.client == AwaitMethod && Greeted(c, s) && Enabled(s, a)
    ensures Inv(c, Next(c, s, a))
  {
    if a.ServerStep? {
      assert Greeting(c)[..2] == [VER, 1] && Greeting(c)[2..] == [Wanted(c)];
      assert [Wanted(c)][..1] == [Wanted(c)];
    } else {
      assert s.toClient[..2] == s.toClient;
    }
  }

  lemma Front(a: Bytes, b: Bytes)
    ensures (a + b)[..|a|] == a && (a + b)[|a|..] == b
  {}

  lemma VerdictRead(c: Setup, s: State, a: Step)
    requires s.client == AwaitVerdict && SentCredentials(c, s) && Enabled(s, a) && !a.ServerStep?
    ensures Inv(c, Next(c, s, a))
  {
    assert s.toClient[..2] == s.toClient && s.toClient[2..] == [];
    assert [] + Request(c) == Request(c);
  }

  lemma PassRead(c: Setup, s: State)
    requires s.client == AwaitVerdict && SentCredentials(c, s) && s.server.AwaitPass? && Enabled(s, ServerStep)
    ensures Inv(c, Next(c, s, ServerStep))
  {
    assert c.pass[..|c.pass|] == c.pass;
  }

  lemma CredentialsStep(c: Setup, s: State, a: Step)
    requires Fits(c) && s.client == AwaitVerdict && SentCredentials(c, s) && Enabled(s, a)
    ensures Inv(c, Next(c, s, a))
  {
    var tail := [LowByte(|c.pass|)] + c.pass;
    if !a.ServerStep? {
      VerdictRead(c, s, a);
    } else if s.server.AwaitAuthHead? {
      Front([1, LowByte(|c.user|)], c.user + tail);
    } else if s.server.AwaitUser? {
      Front(c.user, tail);
    } else if s.server.AwaitPassLen? {
      Front([LowByte(|c.pass|)], c.pass);
    } else {
      PassRead(c, s);
    }
  }

  lemma PortStep(c: Setup, s: State)
    requires Fits(c) && s.client == AwaitHead && SentRequest(c, s) && s.server.AwaitPort? && Enabled(s, ServerStep)
    ensures Inv(c, Next(c, s, ServerStep))
  {
    U16RoundTrip(c.port);
    assert PutU16(c.port)[..2] == PutU16(c.port);
  }

  lemma DialStep(c: Setup, s: State)
    requires s.client == AwaitHead && SentRequest(c, s) && s.server.Dialing? && Enabled(s, ServerStep)
    ensures Inv(c, Next(c, s, ServerStep))
  {
    assert s.toServer[..0] == [];
  }

  lemma RequestStep(c: Setup, s: State)
    requires Fits(c) && s.client == AwaitHead && SentRequest(c, s) && Enabled(s, ServerStep)
    ensures Inv(c, Next(c, s, ServerStep))
  {
    var n, port := |c.host|, PutU16(c.port);
    match s.server {
      case AwaitRequest => Front([VER, CONNECT, 0, NAME], [LowByte(n)] + (c.host + port));
      case AwaitHostLen(_) => Front([LowByte(n)], c.host + port);
      case AwaitHost(_, _) => Front(c.host, port);
      case AwaitPort(_, _) => PortStep(c, s);
      case _ => DialStep(c, s);
    }
  }

  lemma AnswerStep(c: Setup, s: State, a: Step)
    requires Fits(c) && Inv(c, s) && Enabled(s, a) && (s.client == AwaitHead ==> !a.ServerStep?)
    requires s.client != AwaitMethod && s.client != AwaitVerdict
    ensures Inv(c, Next(c, s, a))
  {}

  lemma InvStep(c: Setup, s: State, a: Step)
    requires Fits(c) && Inv(c, s) && Enabled(s, a)
    ensures Inv(c, Next(c, s, a))
  {
    match s.client {
      case AwaitMethod => GreetedStep(c, s, a);
      case AwaitVerdict => CredentialsStep(c, s, a);
      case _ =>
        if s.client == AwaitHead && a.ServerStep? {
          RequestStep(c, s);
        } else {
          AnswerStep(c, s, a);
        }
    }
  }

  lemma {:induction false} AlwaysInv(c: Setup, s: State, run: seq<Step>)
    requires Fits(c) && Inv(c, s) && Runs(c, s, run)
    ensures Inv(c, After(c, s, run))
    decreases |run|
  {
    if run != [] {
      InvStep(c, s, run[0]);
      AlwaysInv(c, Next(c, s, run[0]), run[1..]);
    }
  }

  // ------------------------------------------------------------------------
  // Every negotiation ends, and ends right
  // ------------------------------------------------------------------------

  function ClientRank(p: Client): nat {
    match p
    case Start => 6
    case AwaitMethod => 5
    case AwaitVerdict => 4
    case AwaitHead => 3
    case AwaitBoundLen => 2
    case AwaitBound(_) => 1
    case _ => 0
  }

  function ServerRank(p: Server): nat {
    match p
    case AwaitGreeting => 11
    case AwaitMethods(_) => 10
    case AwaitAuthHead => 9
    case AwaitUser(_) => 8
    case AwaitPassLen(_) => 7
    case AwaitPass(_, _) => 6
    case AwaitRequest => 5
    case AwaitHostLen(_) => 4
    case AwaitHost(_, _) => 3
    case AwaitIp(_, _) => 3
    case AwaitPort(_, _) => 2
    case Dialing(_, _) => 1
    case _ => 0
  }

  function Rank(s: State): nat {
    ClientRank(s.client) + ServerRank(s.server)
  }

  lemma RankFalls(c: Setup, s: State, a: Step)
    requires Enabled(s, a)
    ensures Rank(Next(c, s, a)) < Rank(s)
  {}

  /** No interleaving runs for more than seventeen steps. */
  lemma {:induction false} NegotiationBounded(c: Setup, s: State, run: seq<Step>)
    requires Runs(c, s, run)
    ensures |run| <= Rank(s)
    ensures s == Initial ==> |run| <= 17
    decreases |run|
  {
    if run != [] {
      RankFalls(c, s, run[0]);
      NegotiationBounded(c, Next(c, s, run[0]), run[1..]);
    }
  }

  /** Neither party is ever left waiting for the other. */
  lemma {:induction false} NeverStuck(c: Setup, run: seq<Step>) returns (a: Step)
    requires Fits(c) && Runs(c, Initial, run) && !ClientDone(After(c, Initial, run))
    ensures Enabled(After(c, Initial, run), a)
  {
    AlwaysInv(c, Initial, run);
    var s := After(c, Initial, run);
    a := if Enabled(s, ServerStep) then ServerStep else ClientStep;
  }

  /**
   The client succeeds exactly when method, credentials and dial are accepted.  On success the server has
   checked exactly the client's credentials and dialled exactly its target, and no byte is left over.
   */
  lemma {:induction false} NegotiationOutcome(c: Setup, run: seq<Step>)
    requires Fits(c) && Runs(c, Initial, run) && ClientDone(After(c, Initial, run))
    ensures
      var s := After(c, Initial, run);
      && (s.client == Connected <==> Accepted(c))
      && (s.client == Connected ==> Tunnelled(c, s) && s.toServer == [] && s.toClient == [])
      && (s.client == Rejected ==> s.server == Closed)
  {
    AlwaysInv(c, Initial, run);
  }

  predicate ShortHost(h: Host) {
    h.Name? ==> |h.name| <= 255
  }

  predicate ShortLogs(s: State) {
    && (forall i :: 0 <= i < |s.checked| ==> |s.checked[i].0| <= 255 && |s.checked[i].1| <= 255)
    && (forall i :: 0 <= i < |s.dialed| ==> ShortHost(s.dialed[i].0) && 0 <= s.dialed[i].1 < 65536)
  }

  predicate ShortServer(p: Server) {
    match p
    case AwaitUser(n) => n <= 255
    case AwaitPassLen(user) => |user| <= 255
    case AwaitPass(user, n) => |user| <= 255 && n <= 255
    case AwaitHost(_, n) => n <= 255
    case AwaitPort(_, host) => ShortHost(host)
    case Dialing(host, port) => ShortHost(host) && 0 <= port < 65536
    case _ => true
  }

  lemma ShortStep(c: Setup, s: State, a: Step)
    requires ShortServer(s.server) && ShortLogs(s) && Enabled(s, a)
    ensures ShortServer(Next(c, s, a).server) && ShortLogs(Next(c, s, a))
  {}

  lemma {:induction false} AlwaysShort(c: Setup, s: State, run: seq<Step>)
    requires ShortServer(s.server) && ShortLogs(s) && Runs(c, s, run)
    ensures ShortLogs(After(c, s, run))
    decreases |run|
  {
    if run != [] {
      ShortStep(c, s, run[0]);
      AlwaysShort(c, Next(c, s, run[0]), run[1..]);
    }
  }

  /** The server only ever checks credentials, and dials targets, that the protocol can express. */
  lemma {:induction false} OnlyShortLogged(c: Setup, run: seq<Step>)
    requires Runs(c, Initial, run)
    ensures (c.user, c.pass) in After(c, Initial, run).checked ==> |c.user| <= 255 && |c.pass| <= 255
    ensures (Name(c.host), c.port) in After(c, Initial, run).dialed ==> |c.host| <= 255 && 0 <= c.port < 65536
  {
    AlwaysShort(c, Initial, run);
  }

  lemma {:induction false} RunsAppend(c: Setup, s: State, run: seq<Step>, a: Step)
    requires Runs(c, s, run) && Enabled(After(c, s, run), a)
    ensures Runs(c, s, run + [a]) && After(c, s, run + [a]) == Next(c, After(c, s, run), a)
    decreases |run|
  {
    if run == [] {
      assert run + [a] == [a];
      assert After(c, s, [a]) == After(c, Next(c, s, a), []);
    } else {
      RunsAppend(c, Next(c, s, run[0]), run[1..], a);
      assert (run + [a])[1..] == run[1..] + [a];
    }
  }

  /** Every negotiation can be carried to its end. */
  lemma {:induction false} Finish(c: Setup, run: seq<Step>) returns (whole: seq<Step>)
    requires Fits(c) && Runs(c, Initial, run)
    ensures Runs(c, Initial, whole) && ClientDone(After(c, Initial, whole))
    decreases 17 - |run|
  {
    NegotiationBounded(c, Initial, run);
    if ClientDone(After(c, Initial, run)) {
      whole := run;
    } else {
      var a := NeverStuck(c, run);
      RunsAppend(c, Initial, run, a);
      NegotiationBounded(c, Initial, run + [a]);
      whole := Finish(c, run + [a]);
    }
  }

  /** A run at whose end the client has the tunnel it asked for. */
  predicate Succeeds(c: Setup, run: seq<Step>) {
    Runs(c, Initial, run) && After(c, Initial, run).client == Connected && Tunnelled(c, After(c, Initial, run))
  }

  /** A client can get the tunnel it asks for exactly when it is accepted and within the limits of the protocol. */
  lemma {:induction false} LimitsAreExact(c: Setup)
    ensures (exists run :: Succeeds(c, run)) <==> Fits(c) && Accepted(c)
  {
    if Fits(c) && Accepted(c) {
      var run := Finish(c, []);
      NegotiationOutcome(c, run);
      assert Succeeds(c, run);
    }
    if run :| Succeeds(c, run) {
      OnlyShortLogged(c, run);
      assert (Name(c.host), c.port) in After(c, Initial, run).dialed;
      assert !NoAuth(c) ==> (c.user, c.pass) in After(c, Initial, run).checked;
      NegotiationOutcome(c, run);
    }
  }

  // ------------------------------------------------------------------------
  // Targets outside the limits: the length byte and the port wrap
  // ------------------------------------------------------------------------

  predicate ShortCredentials(c: Setup) {
    |c.user| <= 255 && |c.pass| <= 255
  }

  /** What the request says after the length of the host. */
  function Target(c: Setup): Bytes {
    c.host + PutU16(c.port)
  }

  /** The setup that the server takes the request for. */
  function Heard(c: Setup): Setup {
    var n := |c.host| % 256;
    c.(host := Target(c)[..n], port := GetU16(Target(c)[n..n + 2]))
  }

  /** The end of the request, which the server does not read as part of it. */
  function Leftover(c: Setup): Bytes {
    Target(c)[|c.host| % 256 + 2..]
  }

  lemma Thirds(b: Bytes, i: nat, j: nat)
    requires i <= j <= |b|
    ensures b == b[..i] + b[i..j] + b[j..]
  {}

  lemma HeardRequest(c: Setup)
    ensures Request(c) == Request(Heard(c)) + Leftover(c)
  {
    var n := |c.host| % 256;
    var b := Target(c)[n..n + 2];
    Thirds(Target(c), n, n + 2);
    U16Bytes(b);
    assert Target(c) == Heard(c).host + PutU16(Heard(c).port) + Leftover(c);
  }

  predicate RequestSent(p: Client) {
    p == AwaitHead || p == AwaitBoundLen || p.AwaitBound? || p == Connected
  }

  /** `s` is what `t` is, with the leftover behind the request once that has been sent. */
  predicate Echoes(c: Setup, s: State, t: State) {
    && s == t.(toServer := s.toServer)
    && (RequestSent(t.client) ==> s.toServer == t.toServer + Leftover(c))
    && (!RequestSent(t.client) && t.client != Rejected ==> s.toServer == t.toServer)
  }

  lemma LongerSlices(b: Bytes, more: Bytes, n: nat)
    requires n <= |b|
    ensures (b + more)[..n] == b[..n] && (b + more)[n..] == b[n..] + more
  {}

  lemma EnoughSent(c: Setup, s: State)
    requires Fits(c) && Inv(c, s) && RequestSent(s.client) && !ServerDone(s)
    ensures ServerNeeds(s.server) <= |s.toServer|
  {}

  lemma EchoesServer(c: Setup, s: State, t: State)
    requires ShortCredentials(c) && Inv(Heard(c), t) && Echoes(c, s, t) && Enabled(s, ServerStep)
    ensures Enabled(t, ServerStep) && Echoes(c, Next(c, s, ServerStep), Next(Heard(c), t, ServerStep))
  {
    if RequestSent(t.client) {
      EnoughSent(Heard(c), t);
      LongerSlices(t.toServer, Leftover(c), ServerNeeds(t.server));
    }
  }

  lemma EchoesClient(c: Setup, s: State, t: State)
    requires ShortCredentials(c) && Inv(Heard(c), t) && Echoes(c, s, t) && Enabled(s, ClientStep)
    ensures Enabled(t, ClientStep) && Echoes(c, Next(c, s, ClientStep), Next(Heard(c), t, ClientStep))
  {
    HeardRequest(c);
    Regroup(t.toServer, Request(Heard(c)), Leftover(c));
    var n := ClientNeeds(t.client);
    assert ClientMove(c, t.client, t.toClient[..n]).0 == ClientMove(Heard(c), t.client, t.toClient[..n]).0;
  }

  /** The two setups allow the same steps, with the same effect but for the leftover. */
  lemma EchoesStep(c: Setup, s: State, t: State, a: Step)
    requires ShortCredentials(c) && Inv(Heard(c), t) && Echoes(c, s, t)
    ensures Enabled(s, a) <==> Enabled(t, a)
    ensures Enabled(s, a) ==> Echoes(c, Next(c, s, a), Next(Heard(c), t, a))
  {
    if Enabled(s, a) {
      match a {
        case ClientStep => EchoesClient(c, s, t);
        case ServerStep => EchoesServer(c, s, t);
        case _ =>
      }
    }
  }

  lemma {:induction false} EchoesRun(c: Setup, s: State, t: State, run: seq<Step>)
    requires ShortCredentials(c) && Inv(Heard(c), t) && Echoes(c, s, t)
    ensures Runs(c, s, run) <==> Runs(Heard(c), t, run)
    ensures Runs(c, s, run) ==> Echoes(c, After(c, s, run), After(Heard(c), t, run))
    decreases |run|
  {
    if run != [] {
      EchoesStep(c, s, t, run[0]);
      if Enabled(s, run[0]) {
        InvStep(Heard(c), t, run[0]);
        EchoesRun(c, Next(c, s, run[0]), Next(Heard(c), t, run[0]), run[1..]);
      }
    }
  }

  /**
   Whatever its target, the client succeeds exactly when the target its request is taken for is accepted; that
   one is then dialled, and the rest of the request is left in the stream.
   */
  lemma {:induction false} HeardOutcome(c: Setup, run: seq<Step>)
    requires ShortCredentials(c) && Runs(c, Initial, run) && ClientDone(After(c, Initial, run))
    ensures
      var s := After(c, Initial, run);
      && (s.client == Connected <==> Accepted(Heard(c)))
      && (s.client == Connected ==>
            && s.checked == Checks(c) && s.dialed == [(Name(Heard(c).host), Heard(c).port)]
            && s.toServer == Leftover(c) && s.toClient == [])
  {
    EchoesRun(c, Initial, Initial, run);
    NegotiationOutcome(Heard(c), run);
  }

  /** A host that fits is heard as it is, with the port modulo 2^16. */
  lemma HeardShort(c: Setup)
    requires |c.host| <= 255
    ensures Heard(c).host == c.host && Heard(c).port == c.port % 65536
  {
    var n := |c.host|;
    Front(c.host, PutU16(c.port));
    assert Target(c)[n..n + 2] == PutU16(c.port);
    U16Wraps(c.port);
  }

  lemma HeardRightIff(c: Setup)
    ensures
      (Heard(c).host == c.host && Heard(c).port == c.port) <==> (|c.host| <= 255 && 0 <= c.port < 65536)
  {
    if |c.host| <= 255 {
      HeardShort(c);
    }
  }

  /** A client that has succeeded has the tunnel it asked for exactly when it asked within the limits. */
  lemma {:induction false} RightTargetIff(c: Setup, run: seq<Step>)
    requires Runs(c, Initial, run) && After(c, Initial, run).client == Connected
    ensures Tunnelled(c, After(c, Initial, run)) <==> Fits(c)
  {
    LimitsAreExact(c);
    if Tunnelled(c, After(c, Initial, run)) {
      assert Succeeds(c, run);
    }
    if Fits(c) {
      NegotiationOutcome(c, run);
    }
  }

  /** A client whose request is taken for an accepted target can succeed. */
  lemma {:induction false} HeardConnects(c: Setup) returns (run: seq<Step>)
    requires ShortCredentials(c) && Accepted(Heard(c))
    ensures Runs(c, Initial, run) && After(c, Initial, run).client == Connected
  {
    run := Finish(Heard(c), []);
    EchoesRun(c, Initial, Initial, run);
    HeardOutcome(c, run);
  }

  /** A port that is negative or too large: the client succeeds, and the port dialled is another. */
  lemma {:induction false} WrongPortDialled(c: Setup) returns (run: seq<Step>)
    requires ShortCredentials(c) && |c.host| <= 255 && !(0 <= c.port < 65536)
    requires Authorised(c) && c.dial(Name(c.host), c.port % 65536)
    ensures Runs(c, Initial, run) && After(c, Initial, run).client == Connected
    ensures After(c, Initial, run).dialed == [(Name(c.host), c.port % 65536)] && c.port % 65536 != c.port
    ensures c.port == -80 ==> After(c, Initial, run).dialed == [(Name(c.host), 65456)]
    ensures c.port == 65616 ==> After(c, Initial, run).dialed == [(Name(c.host), 80)]
  {
    HeardShort(c);
    run := HeardConnects(c);
    HeardOutcome(c, run);
  }

  // ------------------------------------------------------------------------
  // The server against any peer
  // ------------------------------------------------------------------------

  /** The server fed arbitrary bytes, taking a step whenever it can. */
  function Serve(c: Setup, s: State, inputs: seq<Bytes>): State
    decreases |inputs|
  {
    if inputs == [] then s else
    var fed := s.(toServer := s.toServer + inputs[0]);
    Serve(c, if Enabled(fed, ServerStep) then Next(c, fed, ServerStep) else fed, inputs[1..])
  }

  predicate PastAuth(p: Server) {
    ServerRank(p) <= 5 && p != Closed
  }

  predicate Cleared(c: Setup, s: State) {
    && (PastAuth(s.server) || s.dialed != [] ==>
          c.auth.None? || (|s.checked| == 1 && c.auth.value(s.checked[0].0, s.checked[0].1)))
    && (ServerRank(s.server) > 5 ==> s.checked == [])
  }

  lemma {:induction false} StaysCleared(c: Setup, s: State, inputs: seq<Bytes>)
    requires Cleared(c, s)
    ensures Cleared(c, Serve(c, s, inputs))
    decreases |inputs|
  {
    if inputs != [] {
      var fed := s.(toServer := s.toServer + inputs[0]);
      StaysCleared(c, if Enabled(fed, ServerStep) then Next(c, fed, ServerStep) else fed, inputs[1..]);
    }
  }

  /** Whatever the peer sends, nothing is dialled or relayed before credentials the server accepts. */
  lemma {:induction false} NoDialUncleared(c: Setup, inputs: seq<Bytes>)
    requires c.auth.Some?
    requires Serve(c, Initial, inputs).dialed != [] || Serve(c, Initial, inputs).server == Relaying
    ensures
      var s := Serve(c, Initial, inputs);
      |s.checked| == 1 && c.auth.value(s.checked[0].0, s.checked[0].1)
  {
    StaysCleared(c, Initial, inputs);
  }
}
