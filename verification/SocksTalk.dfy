/** Each SOCKS5 party against any peer: what it does with every message the protocol can express, and with others. */
module SocksTalk {
  import opened Basics
  import opened SocksParties

  // ------------------------------------------------------------------------
  // The server on its own
  // ------------------------------------------------------------------------

  /** The server takes what it can of the bytes it has been sent. */
  function Drain(c: Setup, s: State): State
    decreases Rank(s)
  {
    if Enabled(s, ServerStep) then
      RankFalls(c, s, ServerStep);
      Drain(c, Next(c, s, ServerStep))
    else s
  }

  /** The server after a read that returned `piece`, with `rest` still unread. */
  function Taken(c: Setup, s: State, piece: Bytes, rest: Bytes): State
    requires |piece| == ServerNeeds(s.server)
  {
    var (p, out) := ServerMove(c, s.server, piece);
    s.(server := p, toServer := rest, toClient := s.toClient + out,
       checked := if s.server.AwaitPass? then s.checked + [(s.server.user, piece)] else s.checked,
       dialed := if s.server.Dialing? then s.dialed + [(s.server.host, s.server.port)] else s.dialed)
  }

  lemma Takes(c: Setup, s: State, piece: Bytes, rest: Bytes)
    requires s.toServer == piece + rest && |piece| == ServerNeeds(s.server) && !ServerDone(s)
    ensures Drain(c, s) == Drain(c, Taken(c, s, piece, rest))
  {
    Front(piece, rest);
    assert Next(c, s, ServerStep) == Taken(c, s, piece, rest);
  }

  /** A read that cannot be completed leaves the server where it is. */
  lemma Waits(c: Setup, s: State)
    requires |s.toServer| < ServerNeeds(s.server)
    ensures Drain(c, s) == s && !ServerDone(s)
  {}

  /** A reply with a code and an all-zero IPv4 address. */
  function Code(code: byte): Bytes {
    [5, code, 0, 1, 0, 0, 0, 0, 0, 0]
  }

  /** No authentication if the server asks for none, username and password otherwise. */
  function Method(c: Setup): byte {
    if c.auth.None? then 0 else 2
  }

  function Hello(methods: Bytes): Bytes
    requires |methods| <= 255
  {
    [5, |methods|] + methods
  }

  /** Whatever methods a client offers, the server picks the one it wants if it is among them, and refuses otherwise. */
  lemma ServerPicks(c: Setup, s: State, methods: Bytes, rest: Bytes)
    requires |methods| <= 255 && s.server == AwaitGreeting && s.toServer == Hello(methods) + rest
    ensures
      Drain(c, s) == Drain(c, s.(
        server := if Method(c) !in methods then Closed else if c.auth.None? then AwaitRequest else AwaitAuthHead,
        toServer := rest,
        toClient := s.toClient + [5, if Method(c) in methods then Method(c) else 255]))
  {
    var head: Bytes := [5, |methods|];
    Regroup(head, methods, rest);
    Takes(c, s, head, methods + rest);
    var t := Taken(c, s, head, methods + rest);
    Takes(c, t, methods, rest);
    assert s.toClient + [] == s.toClient;
  }

  function Login(user: Bytes, pass: Bytes): Bytes
    requires |user| <= 255 && |pass| <= 255
  {
    [1, |user|] + user + [|pass|] + pass
  }

  lemma LoginHead(c: Setup, s: State, user: Bytes, after: Bytes)
    requires |user| <= 255 && s.server == AwaitAuthHead && s.toServer == [1, |user|] + (user + after)
    ensures Drain(c, s) == Drain(c, s.(server := AwaitPassLen(user), toServer := after))
  {
    Takes(c, s, [1, |user|], user + after);
    assert s.toClient + [] == s.toClient;
    Takes(c, Taken(c, s, [1, |user|], user + after), user, after);
  }

  lemma LoginTail(c: Setup, s: State, user: Bytes, pass: Bytes, rest: Bytes)
    requires |pass| <= 255 && c.auth.Some? && s.server == AwaitPassLen(user) && s.toServer == [|pass|] + (pass + rest)
    ensures
      var ok := c.auth.value(user, pass);
      Drain(c, s) == Drain(c, s.(
        server := if ok then AwaitRequest else Closed, toServer := rest,
        toClient := s.toClient + [1, if ok then 0 else 1], checked := s.checked + [(user, pass)]))
  {
    Takes(c, s, [|pass|], pass + rest);
    assert s.toClient + [] == s.toClient;
    Takes(c, Taken(c, s, [|pass|], pass + rest), pass, rest);
  }

  /** Any credentials the protocol can carry are checked as they were sent, once. */
  lemma ServerChecks(c: Setup, s: State, user: Bytes, pass: Bytes, rest: Bytes)
    requires |user| <= 255 && |pass| <= 255 && c.auth.Some?
    requires s.server == AwaitAuthHead && s.toServer == Login(user, pass) + rest
    ensures
      var ok := c.auth.value(user, pass);
      Drain(c, s) == Drain(c, s.(
        server := if ok then AwaitRequest else Closed, toServer := rest,
        toClient := s.toClient + [1, if ok then 0 else 1], checked := s.checked + [(user, pass)]))
  {
    var after := [|pass|] + (pass + rest);
    assert s.toServer == [1, |user|] + (user + after);
    LoginHead(c, s, user, after);
    LoginTail(c, s.(server := AwaitPassLen(user), toServer := after), user, pass, rest);
  }

  /** A request as any client may write it. */
  function Ask(cmd: byte, rsv: byte, h: Host, port: nat): Bytes
    requires Expressible(h) && port < 65536
  {
    [5, cmd, rsv] + Address(h) + PutU16(port)
  }

  lemma AskHead(c: Setup, s: State, cmd: byte, rsv: byte, atyp: byte, rest: Bytes)
    requires s.server == AwaitRequest && s.toServer == [5, cmd, rsv, atyp] + rest
    requires atyp == 1 || atyp == 3 || atyp == 4
    ensures
      Drain(c, s) == Drain(c, s.(
        server := if atyp == 1 then AwaitIp(cmd, 4) else if atyp == 4 then AwaitIp(cmd, 16) else AwaitHostLen(cmd),
        toServer := rest))
  {
    Takes(c, s, [5, cmd, rsv, atyp], rest);
    assert s.toClient + [] == s.toClient;
  }

  lemma AskIpBody(c: Setup, s: State, cmd: byte, ip: Bytes, after: Bytes)
    requires s.server == AwaitIp(cmd, |ip|) && s.toServer == ip + after
    ensures Drain(c, s) == Drain(c, s.(server := AwaitPort(cmd, Ip(ip)), toServer := after))
  {
    Takes(c, s, ip, after);
    assert s.toClient + [] == s.toClient;
  }

  lemma AskIp(c: Setup, s: State, cmd: byte, rsv: byte, ip: Bytes, after: Bytes)
    requires (|ip| == 4 || |ip| == 16) && s.server == AwaitRequest
    requires s.toServer == [5, cmd, rsv, if |ip| == 4 then 1 else 4] + (ip + after)
    ensures Drain(c, s) == Drain(c, s.(server := AwaitPort(cmd, Ip(ip)), toServer := after))
  {
    AskHead(c, s, cmd, rsv, if |ip| == 4 then 1 else 4, ip + after);
    AskIpBody(c, s.(server := AwaitIp(cmd, |ip|), toServer := ip + after), cmd, ip, after);
  }

  lemma AskNameLen(c: Setup, s: State, cmd: byte, name: Bytes, after: Bytes)
    requires |name| <= 255 && s.server == AwaitHostLen(cmd) && s.toServer == [|name|] + (name + after)
    ensures Drain(c, s) == Drain(c, s.(server := AwaitHost(cmd, |name|), toServer := name + after))
  {
    Takes(c, s, [|name|], name + after);
    assert s.toClient + [] == s.toClient;
  }

  lemma AskNameBody(c: Setup, s: State, cmd: byte, name: Bytes, after: Bytes)
    requires s.server == AwaitHost(cmd, |name|) && s.toServer == name + after
    ensures Drain(c, s) == Drain(c, s.(server := AwaitPort(cmd, Name(name)), toServer := after))
  {
    Takes(c, s, name, after);
    assert s.toClient + [] == s.toClient;
  }

  lemma AskName(c: Setup, s: State, cmd: byte, rsv: byte, name: Bytes, after: Bytes)
    requires |name| <= 255 && s.server == AwaitRequest
    requires s.toServer == [5, cmd, rsv, 3] + ([|name|] + (name + after))
    ensures Drain(c, s) == Drain(c, s.(server := AwaitPort(cmd, Name(name)), toServer := after))
  {
    var rest := [|name|] + (name + after);
    AskHead(c, s, cmd, rsv, 3, rest);
    AskNameLen(c, s.(server := AwaitHostLen(cmd), toServer := rest), cmd, name, after);
    AskNameBody(c, s.(server := AwaitHost(cmd, |name|), toServer := name + after), cmd, name, after);
  }

  lemma AskBytes(cmd: byte, rsv: byte, h: Host, after: Bytes)
    requires Expressible(h)
    ensures h.Ip? ==>
      [5, cmd, rsv] + Address(h) + after == [5, cmd, rsv, if |h.ip| == 4 then 1 else 4] + (h.ip + after)
    ensures h.Name? ==>
      [5, cmd, rsv] + Address(h) + after == [5, cmd, rsv, 3] + ([|h.name|] + (h.name + after))
  {}

  /** The server reads the address of a request, whatever its type. */
  lemma AskAddress(c: Setup, s: State, cmd: byte, rsv: byte, h: Host, after: Bytes)
    requires Expressible(h) && s.server == AwaitRequest && s.toServer == [5, cmd, rsv] + Address(h) + after
    ensures Drain(c, s) == Drain(c, s.(server := AwaitPort(cmd, h), toServer := after))
  {
    AskBytes(cmd, rsv, h, after);
    if h.Ip? {
      AskIp(c, s, cmd, rsv, h.ip, after);
    } else {
      AskName(c, s, cmd, rsv, h.name, after);
    }
  }

  /**
   A server past authentication given any request: CONNECT dials exactly the address and port of the request and
   answers as the dial went, UDP ASSOCIATE makes it a relay, any other command is refused.  Exactly the bytes of
   the request are read.
   */
  lemma ServerObeys(c: Setup, s: State, cmd: byte, rsv: byte, h: Host, port: nat, rest: Bytes)
    requires Expressible(h) && port < 65536 && s.server == AwaitRequest && s.toServer == Ask(cmd, rsv, h, port) + rest
    ensures
      Drain(c, s) ==
        if cmd == 1 then
          s.(server := if c.dial(h, port) then Piping(h, port) else Closed, toServer := rest,
             toClient := s.toClient + Code(if c.dial(h, port) then 0 else 5), dialed := s.dialed + [(h, port)])
        else if cmd == 3 then s.(server := Relaying, toServer := rest)
        else s.(server := Closed, toServer := rest, toClient := s.toClient + Code(7))
  {
    Regroup([5, cmd, rsv] + Address(h), PutU16(port), rest);
    AskAddress(c, s, cmd, rsv, h, PutU16(port) + rest);
    PortObeyed(c, s.(server := AwaitPort(cmd, h), toServer := PutU16(port) + rest), cmd, h, port, rest);
  }

  lemma PortObeyed(c: Setup, s: State, cmd: byte, h: Host, port: nat, rest: Bytes)
    requires port < 65536 && s.server == AwaitPort(cmd, h) && s.toServer == PutU16(port) + rest
    ensures
      Drain(c, s) ==
        if cmd == 1 then
          s.(server := if c.dial(h, port) then Piping(h, port) else Closed, toServer := rest,
             toClient := s.toClient + Code(if c.dial(h, port) then 0 else 5), dialed := s.dialed + [(h, port)])
        else if cmd == 3 then s.(server := Relaying, toServer := rest)
        else s.(server := Closed, toServer := rest, toClient := s.toClient + Code(7))
  {
    U16RoundTrip(port);
    Takes(c, s, PutU16(port), rest);
    assert s.toClient + [] == s.toClient;
    if cmd == 1 {
      assert [] + rest == rest;
      Takes(c, Taken(c, s, PutU16(port), rest), [], rest);
    }
  }

  /** A client the server accepts, past the greeting and the credentials: its request is next. */
  lemma ServerWelcomes(c: Setup, s: State, methods: Bytes, user: Bytes, pass: Bytes, rest: Bytes)
    requires |methods| <= 255 && |user| <= 255 && |pass| <= 255
    requires Method(c) in methods && (c.auth.Some? ==> c.auth.value(user, pass))
    requires s.server == AwaitGreeting
    requires s.toServer == Hello(methods) + ((if c.auth.Some? then Login(user, pass) else []) + rest)
    ensures
      Drain(c, s) == Drain(c, s.(
        server := AwaitRequest, toServer := rest,
        toClient := s.toClient + [5, Method(c)] + (if c.auth.Some? then [1, 0] else []),
        checked := s.checked + (if c.auth.Some? then [(user, pass)] else [])))
  {
    var login := if c.auth.Some? then Login(user, pass) else [];
    ServerPicks(c, s, methods, login + rest);
    if c.auth.None? {
      assert [] + rest == rest && s.checked + [] == s.checked;
      assert s.toClient + [5, Method(c)] + [] == s.toClient + [5, Method(c)];
    } else {
      ServerChecks(
        c, s.(server := AwaitAuthHead, toServer := login + rest, toClient := s.toClient + [5, Method(c)]),
        user, pass, rest);
    }
  }

  // ------------------------------------------------------------------------
  // The server and messages that are wrong or cut short
  // ------------------------------------------------------------------------

  /** A wrong version or an unknown address type ends the conversation with the code for it. */
  lemma ServerRefuses(c: Setup, s: State, head: Bytes, rest: Bytes)
    requires s.toServer == head + rest
    ensures s.server == AwaitGreeting && |head| == 2 && head[0] != 5 ==>
              Drain(c, s) == s.(server := Closed, toServer := rest)
    ensures s.server == AwaitAuthHead && |head| == 2 && head[0] != 1 ==>
              Drain(c, s) == s.(server := Closed, toServer := rest, toClient := s.toClient + [1, 1])
    ensures s.server == AwaitRequest && |head| == 4 && head[0] != 5 ==>
              Drain(c, s) == s.(server := Closed, toServer := rest, toClient := s.toClient + Code(7))
    ensures s.server == AwaitRequest && |head| == 4 && head[0] == 5 && head[3] != 1 && head[3] != 3 && head[3] != 4 ==>
              Drain(c, s) == s.(server := Closed, toServer := rest, toClient := s.toClient + Code(8))
  {
    assert s.toClient + [] == s.toClient;
    if |head| == ServerNeeds(s.server) && !ServerDone(s) {
      Takes(c, s, head, rest);
    }
  }

  /** The client closes its end with the server in the middle of a message: the server says `last` and closes too. */
  predicate HangsUp(c: Setup, s: State, last: Bytes) {
    var t := Drain(c, s).(client := Rejected);
    && Enabled(t, ServerEof)
    && Next(c, t, ServerEof).server == Closed && Next(c, t, ServerEof).toClient == t.toClient + last
    && t.toClient == s.toClient && t.dialed == s.dialed
  }

  lemma CutName(c: Setup, s: State, cmd: byte, name: Bytes, port: Bytes, k: nat)
    requires |name| <= 255 && |port| == 2 && s.server == AwaitHostLen(cmd)
    requires var all: Bytes := [|name|] + (name + port); k < |all| && s.toServer == all[..k]
    ensures HangsUp(c, s, Code(if k < 1 + |name| then 8 else 1))
  {
    var len: Bytes := [|name|];
    var all := len + (name + port);
    if k < 1 {
      Waits(c, s);
    } else {
      var after := (name + port)[..k - 1];
      assert all[..k] == len + after;
      Takes(c, s, len, after);
      var t := Taken(c, s, len, after);
      if k < 1 + |name| {
        Waits(c, t);
      } else {
        CutPort(c, t, cmd, name, port, k - 1);
      }
    }
  }

  lemma CutPort(c: Setup, s: State, cmd: byte, addr: Bytes, port: Bytes, k: nat)
    requires |port| == 2 && |addr| <= k < |addr| + 2 && s.toServer == (addr + port)[..k]
    requires s.server == AwaitHost(cmd, |addr|) || s.server == AwaitIp(cmd, |addr|)
    ensures HangsUp(c, s, Code(1))
  {
    var after := port[..k - |addr|];
    assert (addr + port)[..k] == addr + after;
    Takes(c, s, addr, after);
    Waits(c, Taken(c, s, addr, after));
  }

  lemma CutAddress(c: Setup, s: State, cmd: byte, h: Host, port: Bytes, k: nat)
    requires Expressible(h) && |port| == 2
    requires s.server == if h.Ip? then AwaitIp(cmd, |h.ip|) else AwaitHostLen(cmd)
    requires k < |Address(h)| - 1 + 2 && s.toServer == (Address(h)[1..] + port)[..k]
    ensures HangsUp(c, s, Code(if k < |Address(h)| - 1 then 8 else 1))
  {
    match h {
      case Name(name) =>
        assert Address(h)[1..] + port == [|name|] + (name + port);
        CutName(c, s, cmd, name, port, k);
      case Ip(ip) =>
        assert Address(h)[1..] == ip;
        if k < |ip| {
          Waits(c, s);
        } else {
          CutPort(c, s, cmd, ip, port, k);
        }
    }
  }

  /** A request cut short gets the code for the field it was cut in: head, address or port. */
  lemma ServerCutShort(c: Setup, s: State, cmd: byte, rsv: byte, h: Host, port: nat, k: nat)
    requires Expressible(h) && port < 65536 && s.server == AwaitRequest
    requires k < |Ask(cmd, rsv, h, port)| && s.toServer == Ask(cmd, rsv, h, port)[..k]
    ensures HangsUp(c, s, Code(if k < 4 then 7 else if k < 3 + |Address(h)| then 8 else 1))
  {
    if k < 4 {
      Waits(c, s);
    } else {
      var after := (Address(h)[1..] + PutU16(port))[..k - 4];
      CutAsk(cmd, rsv, h, port, k);
      Takes(c, s, [5, cmd, rsv, Address(h)[0]], after);
      assert s.toClient + [] == s.toClient;
      CutAddress(c, s.(server := if h.Ip? then AwaitIp(cmd, |h.ip|) else AwaitHostLen(cmd), toServer := after),
                 cmd, h, PutU16(port), k - 4);
    }
  }

  lemma FrontPart(head: Bytes, tail: Bytes, k: nat)
    requires |head| <= k <= |head| + |tail|
    ensures (head + tail)[..k] == head + tail[..k - |head|]
  {}

  lemma AskSplit(cmd: byte, rsv: byte, h: Host, port: nat)
    requires Expressible(h) && port < 65536
    ensures Ask(cmd, rsv, h, port) == [5, cmd, rsv, Address(h)[0]] + (Address(h)[1..] + PutU16(port))
  {
    var first := [Address(h)[0]];
    assert Address(h) == first + Address(h)[1..];
    Regroup([5, cmd, rsv], first, Address(h)[1..]);
    Regroup([5, cmd, rsv] + first, Address(h)[1..], PutU16(port));
    assert [5, cmd, rsv] + first == [5, cmd, rsv, Address(h)[0]];
  }

  lemma CutAsk(cmd: byte, rsv: byte, h: Host, port: nat, k: nat)
    requires Expressible(h) && port < 65536 && 4 <= k < |Ask(cmd, rsv, h, port)|
    ensures
      Ask(cmd, rsv, h, port)[..k] == [5, cmd, rsv, Address(h)[0]] + (Address(h)[1..] + PutU16(port))[..k - 4]
  {
    AskSplit(cmd, rsv, h, port);
    FrontPart([5, cmd, rsv, Address(h)[0]], Address(h)[1..] + PutU16(port), k);
  }

  lemma CutPass(c: Setup, s: State, user: Bytes, pass: Bytes, k: nat)
    requires |pass| <= 255 && s.server == AwaitPassLen(user)
    requires var all: Bytes := [|pass|] + pass; k < |all| && s.toServer == all[..k]
    ensures HangsUp(c, s, [1, 1])
  {
    if k < 1 {
      Waits(c, s);
    } else {
      var len: Bytes := [|pass|];
      assert (len + pass)[..k] == len + pass[..k - 1];
      Takes(c, s, len, pass[..k - 1]);
      assert s.toClient + [] == s.toClient;
      Waits(c, Taken(c, s, len, pass[..k - 1]));
    }
  }

  lemma CutUser(c: Setup, s: State, user: Bytes, pass: Bytes, k: nat)
    requires |pass| <= 255 && s.server == AwaitUser(|user|)
    requires var all: Bytes := user + ([|pass|] + pass); k < |all| && s.toServer == all[..k]
    ensures HangsUp(c, s, [1, 1])
  {
    if k < |user| {
      Waits(c, s);
    } else {
      var after := ([|pass|] + pass)[..k - |user|];
      assert (user + ([|pass|] + pass))[..k] == user + after;
      Takes(c, s, user, after);
      assert s.toClient + [] == s.toClient;
      CutPass(c, Taken(c, s, user, after), user, pass, k - |user|);
    }
  }

  /** Credentials cut short are refused, unchecked. */
  lemma ServerCutLogin(c: Setup, s: State, user: Bytes, pass: Bytes, k: nat)
    requires |user| <= 255 && |pass| <= 255 && s.server == AwaitAuthHead
    requires k < |Login(user, pass)| && s.toServer == Login(user, pass)[..k]
    ensures HangsUp(c, s, [1, 1])
  {
    if k < 2 {
      Waits(c, s);
    } else {
      var head: Bytes, tail := [1, |user|], user + ([|pass|] + pass);
      assert Login(user, pass) == head + tail;
      assert s.toServer == head + tail[..k - 2];
      Takes(c, s, head, tail[..k - 2]);
      assert s.toClient + [] == s.toClient;
      CutUser(c, Taken(c, s, head, tail[..k - 2]), user, pass, k - 2);
    }
  }

  // ------------------------------------------------------------------------
  // The client on its own
  // ------------------------------------------------------------------------

  /** The client takes what it can of the bytes it has been sent. */
  function Negotiate(c: Setup, s: State): State
    decreases Rank(s)
  {
    if Enabled(s, ClientStep) then
      RankFalls(c, s, ClientStep);
      Negotiate(c, Next(c, s, ClientStep))
    else s
  }

  function Heard(c: Setup, s: State, piece: Bytes, rest: Bytes): State
    requires |piece| == ClientNeeds(s.client)
  {
    var (p, out) := ClientMove(c, s.client, piece);
    s.(client := p, toClient := rest, toServer := s.toServer + out)
  }

  lemma Hears(c: Setup, s: State, piece: Bytes, rest: Bytes)
    requires s.toClient == piece + rest && |piece| == ClientNeeds(s.client) && !ClientDone(s)
    ensures Negotiate(c, s) == Negotiate(c, Heard(c, s, piece, rest))
  {
    Front(piece, rest);
    assert Next(c, s, ClientStep) == Heard(c, s, piece, rest);
  }

  /** A server's reply to the request: success, with whatever address the server is bound to. */
  predicate IsReply(b: Bytes, x: byte, r: byte, h: Host, port: Bytes, rest: Bytes) {
    Expressible(h) && |port| == 2 && b == [x, 0, r] + (Address(h) + (port + rest))
  }

  /** `b` is a reply of success and `rest` follows it. */
  ghost predicate Replies(b: Bytes, rest: Bytes) {
    exists x, r, h, port :: IsReply(b, x, r, h, port, rest)
  }

  /** A verdict on the credentials: only its second byte is looked at. */
  ghost predicate Verdict(b: Bytes, rest: Bytes) {
    exists v: byte :: IsVerdict(b, v, rest)
  }

  predicate IsVerdict(b: Bytes, v: byte, rest: Bytes) {
    b == [v, 0] + rest
  }

  /** What a client must be told to succeed: its method, success if it sent credentials, and success. */
  ghost predicate Grants(c: Setup, b: Bytes, rest: Bytes) {
    |b| >= 2 && b[..2] == [5, Wanted(c)] &&
    if NoAuth(c) then Replies(b[2..], rest) else exists after :: Verdict(b[2..], after) && Replies(after, rest)
  }

  /** The bytes left for the address and the port. */
  lemma BoundRead(c: Setup, s: State, body: Bytes, rest: Bytes)
    requires s.client == AwaitBound(|body|) && s.toClient == body + rest
    ensures Negotiate(c, s) == s.(client := Connected, toClient := rest)
  {
    Hears(c, s, body, rest);
    assert s.toServer + [] == s.toServer;
  }

  lemma NameRead(c: Setup, s: State, body: Bytes, rest: Bytes)
    requires s.client == AwaitBoundLen && 2 <= |body| <= 257 && s.toClient == [|body| - 2] + (body + rest)
    ensures Negotiate(c, s) == s.(client := Connected, toClient := rest)
  {
    Hears(c, s, [|body| - 2], body + rest);
    assert s.toServer + [] == s.toServer;
    BoundRead(c, s.(client := AwaitBound(|body|), toClient := body + rest), body, rest);
  }

  /** After the head of a reply of success the client knows how much of the address is to come. */
  lemma HeadRead(c: Setup, s: State, head: Bytes, rest: Bytes)
    requires s.client == AwaitHead && |head| == 4 && head[1] == 0 && s.toClient == head + rest
    requires head[3] == 1 || head[3] == 3 || head[3] == 4
    ensures
      Negotiate(c, s) == Negotiate(c, s.(
        client := if head[3] == 1 then AwaitBound(6) else if head[3] == 4 then AwaitBound(18) else AwaitBoundLen,
        toClient := rest))
  {
    Hears(c, s, head, rest);
    assert s.toServer + [] == s.toServer;
  }

  /** Five pieces, grouped two ways. */
  lemma Shuffle(a: Bytes, b: Bytes, c: Bytes, d: Bytes, e: Bytes)
    ensures a + ((b + c) + (d + e)) == (a + b) + ((c + d) + e)
  {}

  lemma ReplyBytes(x: byte, r: byte, h: Host, port: Bytes, rest: Bytes)
    requires Expressible(h)
    ensures
      var b := [x, 0, r] + (Address(h) + (port + rest));
      && (h.Ip? ==> b == [x, 0, r, if |h.ip| == 4 then 1 else 4] + ((h.ip + port) + rest))
      && (h.Name? ==> b == [x, 0, r, 3] + ([|h.name|] + ((h.name + port) + rest)))
  {
    var start: Bytes := [x, 0, r];
    match h {
      case Ip(ip) =>
        var atyp: Bytes := [if |ip| == 4 then 1 else 4];
        Shuffle(start, atyp, ip, port, rest);
        assert start + atyp == [x, 0, r, if |ip| == 4 then 1 else 4];
      case Name(name) =>
        var len: Bytes := [|name|];
        assert Address(h) == [3] + (len + name);
        Shuffle(start, [3], len + name, port, rest);
        Regroup(len, name, port);
        Regroup(len, name + port, rest);
        assert start + [3] == [x, 0, r, 3];
    }
  }

  lemma IpHeadReply(c: Setup, s: State, x: byte, r: byte, ip: Bytes, port: Bytes, rest: Bytes)
    requires s.client == AwaitHead && IsReply(s.toClient, x, r, Ip(ip), port, rest)
    ensures Negotiate(c, s) == s.(client := Connected, toClient := rest)
  {
    var body := ip + port;
    ReplyBytes(x, r, Ip(ip), port, rest);
    HeadRead(c, s, [x, 0, r, if |ip| == 4 then 1 else 4], body + rest);
    BoundRead(c, s.(client := AwaitBound(|body|), toClient := body + rest), body, rest);
  }

  lemma NameHeadReply(c: Setup, s: State, x: byte, r: byte, name: Bytes, port: Bytes, rest: Bytes)
    requires s.client == AwaitHead && IsReply(s.toClient, x, r, Name(name), port, rest)
    ensures Negotiate(c, s) == s.(client := Connected, toClient := rest)
  {
    var body := name + port;
    var after := [|body| - 2] + (body + rest);
    ReplyBytes(x, r, Name(name), port, rest);
    HeadRead(c, s, [x, 0, r, 3], after);
    NameRead(c, s.(client := AwaitBoundLen, toClient := after), body, rest);
  }

  lemma HeadReply(c: Setup, s: State, x: byte, r: byte, h: Host, port: Bytes, rest: Bytes)
    requires s.client == AwaitHead && IsReply(s.toClient, x, r, h, port, rest)
    ensures Negotiate(c, s) == s.(client := Connected, toClient := rest)
  {
    if h.Ip? {
      IpHeadReply(c, s, x, r, h.ip, port, rest);
    } else {
      NameHeadReply(c, s, x, r, h.name, port, rest);
    }
  }

  lemma SomeReply(b: Bytes, x: byte, r: byte, h: Host, port: Bytes, rest: Bytes)
    requires IsReply(b, x, r, h, port, rest)
    ensures Replies(b, rest)
  {}

  lemma BoundConnected(c: Setup, s: State)
    requires s.client.AwaitBound? && Negotiate(c, s).client == Connected
    ensures |s.toClient| >= s.client.n && Negotiate(c, s).toClient == s.toClient[s.client.n..]
  {
    var n := s.client.n;
    assert s.toClient == s.toClient[..n] + s.toClient[n..];
    BoundRead(c, s, s.toClient[..n], s.toClient[n..]);
  }

  lemma NameConnected(c: Setup, s: State)
    requires s.client == AwaitBoundLen && Negotiate(c, s).client == Connected
    ensures |s.toClient| >= 1 && |s.toClient| >= s.toClient[0] as int + 3
    ensures Negotiate(c, s).toClient == s.toClient[s.toClient[0] as int + 3..]
  {
    var b := s.toClient;
    assert |b| >= 1;
    assert b == [b[0]] + b[1..];
    Hears(c, s, [b[0]], b[1..]);
    BoundConnected(c, Heard(c, s, [b[0]], b[1..]));
  }

  lemma HeadSplit(b: Bytes, n: nat)
    requires |b| >= 4 + n + 2
    ensures b == b[..4] + (b[4..4 + n] + (b[4 + n..6 + n] + b[6 + n..]))
  {}

  lemma HeadRegroup(a: Bytes, b: Bytes, c: Bytes, d: Bytes)
    ensures (a + b) + (c + d) == a + ((b + c) + d)
  {}

  /** The bytes of a reply, taken apart after its four-byte head. */
  lemma ReplyApart(b: Bytes, n: nat)
    requires |b| >= 4 + n + 2 && b[1] == 0
    ensures b == [b[0], 0, b[2]] + (([b[3]] + b[4..4 + n]) + (b[4 + n..6 + n] + b[6 + n..]))
  {
    HeadSplit(b, n);
    assert b[..4] == [b[0], 0, b[2]] + [b[3]];
    HeadRegroup([b[0], 0, b[2]], [b[3]], b[4..4 + n], b[4 + n..6 + n] + b[6 + n..]);
  }

  lemma IpReply(b: Bytes, n: nat)
    requires (n == 4 || n == 16) && |b| >= n + 6 && b[1] == 0 && b[3] == if n == 4 then 1 else 4
    ensures Replies(b, b[n + 6..])
  {
    ReplyApart(b, n);
    SomeReply(b, b[0], b[2], Ip(b[4..4 + n]), b[4 + n..6 + n], b[n + 6..]);
  }

  lemma NameReply(b: Bytes)
    requires |b| >= 5 && |b| >= b[4] as int + 7 && b[1] == 0 && b[3] == 3
    ensures Replies(b, b[b[4] as int + 7..])
  {
    var n := b[4] as int;
    var name := b[5..5 + n];
    ReplyApart(b, n + 1);
    assert b[4..5 + n] == [b[4]] + name;
    assert [b[3]] + ([b[4]] + name) == Address(Name(name));
    SomeReply(b, b[0], b[2], Name(name), b[5 + n..7 + n], b[n + 7..]);
  }

  /** A client that connects has read a reply of success. */
  lemma HeadConnected(c: Setup, s: State)
    requires s.client == AwaitHead && Negotiate(c, s).client == Connected
    ensures Replies(s.toClient, Negotiate(c, s).toClient)
  {
    var b := s.toClient;
    assert |b| >= 4;
    assert b == b[..4] + b[4..];
    Hears(c, s, b[..4], b[4..]);
    var t := Heard(c, s, b[..4], b[4..]);
    if t.client.AwaitBound? {
      BoundConnected(c, t);
      IpReply(b, t.client.n - 2);
    } else {
      NameConnected(c, t);
      NameReply(b);
    }
  }

  lemma HeadIff(c: Setup, s: State, rest: Bytes)
    requires s.client == AwaitHead
    ensures
      var t := Negotiate(c, s);
      t.client == Connected && t.toClient == rest <==> Replies(s.toClient, rest)
  {
    if Negotiate(c, s).client == Connected {
      HeadConnected(c, s);
    }
    if x, r, h, port :| IsReply(s.toClient, x, r, h, port, rest) {
      HeadReply(c, s, x, r, h, port, rest);
    }
  }

  lemma VerdictIff(c: Setup, s: State, rest: Bytes)
    requires s.client == AwaitVerdict
    ensures
      var t := Negotiate(c, s);
      t.client == Connected && t.toClient == rest <==>
      exists after :: Verdict(s.toClient, after) && Replies(after, rest)
  {
    var b := s.toClient;
    if |b| >= 2 {
      assert b == b[..2] + b[2..];
      Hears(c, s, b[..2], b[2..]);
      var t := Heard(c, s, b[..2], b[2..]);
      if b[1] == 0 {
        assert IsVerdict(b, b[0], b[2..]);
        HeadIff(c, t, rest);
      }
    }
    if after :| Verdict(b, after) && Replies(after, rest) {
      var v: byte :| IsVerdict(b, v, after);
      assert after == b[2..];
    }
  }

  /**
   Told anything at all, a client succeeds with `rest` left to read exactly when it was told its method, success
   for its credentials if it has any, and a reply of success with a bound address of any type, with `rest` after.
   */
  lemma ClientConnectsIff(c: Setup, told: Bytes, rest: Bytes)
    ensures
      var t := Negotiate(c, Initial.(toClient := told));
      t.client == Connected && t.toClient == rest <==> Grants(c, told, rest)
  {
    var s := Initial.(toClient := told);
    assert told == [] + told;
    Hears(c, s, [], told);
    var t := Heard(c, s, [], told);
    if |told| >= 2 {
      assert told == told[..2] + told[2..];
      Hears(c, t, told[..2], told[2..]);
      var u := Heard(c, t, told[..2], told[2..]);
      if told[..2] == [5, Wanted(c)] {
        if NoAuth(c) {
          HeadIff(c, u, rest);
        } else {
          VerdictIff(c, u, rest);
        }
      }
    }
  }

  /** A client told `told` by a server that then closes its end. */
  function Ends(c: Setup, told: Bytes): Client {
    var t := Negotiate(c, Initial.(toClient := told, server := Closed));
    if Enabled(t, ClientEof) then Next(c, t, ClientEof).client else t.client
  }

  /** In the end it has either been granted its tunnel, or failed. */
  lemma ClientEndsIff(c: Setup, told: Bytes)
    ensures Ends(c, told) == Connected <==> exists rest :: Grants(c, told, rest)
    ensures Ends(c, told) == Connected || Ends(c, told) == Rejected
  {
    var s := Initial.(toClient := told);
    var t := Negotiate(c, s);
    ServerApart(c, s, s.(server := Closed));
    ClientConnectsIff(c, told, t.toClient);
    if rest :| Grants(c, told, rest) {
      ClientConnectsIff(c, told, rest);
    }
    ClientStops(c, s.(server := Closed));
  }

  /** The client's reading does not depend on where the server is. */
  lemma {:induction false} ServerApart(c: Setup, s: State, t: State)
    requires t == s.(server := t.server)
    ensures Negotiate(c, t) == Negotiate(c, s).(server := t.server)
    decreases Rank(s)
  {
    if Enabled(s, ClientStep) {
      RankFalls(c, s, ClientStep);
      ServerApart(c, Next(c, s, ClientStep), Next(c, t, ClientStep));
    }
  }

  lemma {:induction false} ClientStops(c: Setup, s: State)
    requires s.server == Closed
    ensures
      var t := Negotiate(c, s);
      t.server == Closed && (ClientDone(t) || Enabled(t, ClientEof))
    decreases Rank(s)
  {
    if Enabled(s, ClientStep) {
      RankFalls(c, s, ClientStep);
      ClientStops(c, Next(c, s, ClientStep));
    }
  }
}
