/** SOCKS5 UDP ASSOCIATE, section 7 of RFC 1928: the datagram parser and the relay around it. */
module SocksRelay {
  import opened Basics
  import opened SocksParties

  /** A parsed client datagram; `header` is everything before the data. */
  datatype Parsed = Parsed(host: Host, port: nat, data: Bytes, header: Bytes)

  function ParseRest(b: Bytes, host: Host, pos: nat): Option<Parsed>
    requires pos + 2 <= |b|
  {
    Some(Parsed(host, GetU16(b[pos..pos + 2]), b[pos + 2..], b[..pos + 2]))
  }

  /** Two reserved bytes, a zero FRAG, an address type, the address and a port; fragments are dropped. */
  function Parse(b: Bytes): Option<Parsed> {
    if |b| < 4 || b[2] != 0 then None
    else if b[3] == IPV4 then
      if |b| < 10 then None else ParseRest(b, Ip(b[4..8]), 8)
    else if b[3] == IPV6 then
      if |b| < 22 then None else ParseRest(b, Ip(b[4..20]), 20)
    else if b[3] == NAME then
      if |b| < 5 || |b| < 5 + b[4] as int + 2 then None
      else ParseRest(b, Name(b[5..5 + b[4] as int]), 5 + b[4] as int)
    else None
  }

  // ------------------------------------------------------------------------
  // The format, written the other way round
  // ------------------------------------------------------------------------

  function Header(rsv: Bytes, h: Host, port: nat): Bytes
    requires Expressible(h)
  {
    rsv + [0] + Address(h) + PutU16(port)
  }

  lemma HeaderBytes(rsv: Bytes, h: Host, port: nat, data: Bytes)
    requires |rsv| == 2 && Expressible(h) && port < 65536
    ensures
      var b, n := Header(rsv, h, port) + data, 3 + |Address(h)|;
      && |Header(rsv, h, port)| == n + 2
      && b[..3] == rsv + [0] && b[3..n] == Address(h) && b[n..n + 2] == PutU16(port) && b[n + 2..] == data
  {}

  /** Every datagram of the format is accepted and taken apart exactly. */
  lemma ParseBuilt(rsv: Bytes, h: Host, port: nat, data: Bytes)
    requires |rsv| == 2 && Expressible(h) && port < 65536
    ensures Parse(Header(rsv, h, port) + data) == Some(Parsed(h, port, data, Header(rsv, h, port)))
  {
    var b, n := Header(rsv, h, port) + data, 3 + |Address(h)|;
    HeaderBytes(rsv, h, port, data);
    U16RoundTrip(port);
    assert b[2] == b[..3][2];
    assert forall i :: 0 <= i < |Address(h)| ==> b[3 + i] == b[3..n][i];
    assert b[..n + 2] == Header(rsv, h, port);
    match h {
      case Name(name) => assert b[5..n] == name;
      case Ip(ip) => assert b[4..n] == ip;
    }
  }

  lemma ParsedParts(b: Bytes)
    requires Parse(b).Some?
    ensures
      var p := Parse(b).value;
      var n := |p.header| - 2;
      && 4 <= n && n + 2 <= |b| && b[2] == 0 && Expressible(p.host) && b[3..n] == Address(p.host)
      && p.header == b[..n + 2] && p.data == b[n + 2..] && p.port == GetU16(b[n..n + 2])
  {
    var p := Parse(b).value;
    if p.host.Name? {
      SplitHead(b, 3, 5 + b[4] as int);
      SplitHead(b, 4, 5 + b[4] as int);
      assert [NAME] + ([b[4]] + p.host.name) == [NAME, b[4]] + p.host.name;
    } else {
      SplitHead(b, 3, 4 + |p.host.ip|);
    }
  }

  lemma SplitHead(b: Bytes, i: nat, j: nat)
    requires i < j <= |b|
    ensures b[i..j] == [b[i]] + b[i + 1..j]
  {}

  lemma Cut(b: Bytes, n: nat)
    requires 3 <= n && n + 2 <= |b|
    ensures b[..n + 2] == b[..2] + [b[2]] + b[3..n] + b[n..n + 2]
  {}

  /** Nothing else is accepted: an accepted datagram is its header followed by its data, and in the format. */
  lemma ParsedIsBuilt(b: Bytes)
    requires Parse(b).Some?
    ensures
      var p := Parse(b).value;
      && Expressible(p.host) && p.port < 65536
      && p.header == Header(b[..2], p.host, p.port) && b == p.header + p.data
  {
    ParsedParts(b);
    var n := |Parse(b).value.header| - 2;
    U16Bytes(b[n..n + 2]);
    Cut(b, n);
  }

  /** A stored header in front of any payload parses back to the same destination and that payload. */
  lemma HeaderRoundTrip(b: Bytes, payload: Bytes)
    requires Parse(b).Some?
    ensures Parse(Parse(b).value.header + payload) == Some(Parse(b).value.(data := payload))
  {
    var p := Parse(b).value;
    ParsedIsBuilt(b);
    ParseBuilt(b[..2], p.host, p.port, payload);
  }

  // ------------------------------------------------------------------------
  // The relay
  // ------------------------------------------------------------------------

  /** The key of a flow: the destination as JoinHostPort prints it. */
  datatype Dest = Dest(text: Bytes, port: nat)

  datatype Endpoint = Endpoint(ip: Bytes, port: nat)

  function DestOf(show: Host -> Bytes, p: Parsed): Dest {
    Dest(show(p.host), p.port)
  }

  /** `b` is put together from a header for `h` and `d`'s port, and `payload`. */
  predicate Built(show: Host -> Bytes, b: Bytes, rsv: Bytes, h: Host, d: Dest, payload: Bytes) {
    && |rsv| == 2 && Expressible(h) && d.port < 65536 && d.text == show(h)
    && b == Header(rsv, h, d.port) + payload
  }

  /** `b` is a datagram of the format that names `d` and carries `payload`. */
  ghost predicate Names(show: Host -> Bytes, b: Bytes, d: Dest, payload: Bytes) {
    exists rsv, h :: Built(show, b, rsv, h, d, payload)
  }

  /** What the parser and DestOf make of a datagram is what it names and carries. */
  lemma NamesIff(show: Host -> Bytes, b: Bytes, d: Dest, payload: Bytes)
    ensures
      Names(show, b, d, payload) <==>
      Parse(b).Some? && DestOf(show, Parse(b).value) == d && Parse(b).value.data == payload
  {
    if rsv, h :| Built(show, b, rsv, h, d, payload) {
      ParseBuilt(rsv, h, d.port, payload);
    }
    if Parse(b).Some? && DestOf(show, Parse(b).value) == d && Parse(b).value.data == payload {
      ParsedIsBuilt(b);
      assert Built(show, b, b[..2], Parse(b).value.host, d, payload);
    }
  }

  /** A datagram names one destination and carries one payload. */
  lemma NamesOne(show: Host -> Bytes, b: Bytes, d: Dest, x: Bytes, e: Dest, y: Bytes)
    requires Names(show, b, d, x) && Names(show, b, e, y)
    ensures d == e && x == y
  {
    NamesIff(show, b, d, x);
    NamesIff(show, b, e, y);
  }

  lemma HeaderNames(show: Host -> Bytes, b: Bytes, d: Dest, payload: Bytes)
    requires Parse(b).Some? && DestOf(show, Parse(b).value) == d
    ensures Names(show, Parse(b).value.header + payload, d, payload)
  {
    HeaderRoundTrip(b, payload);
    NamesIff(show, Parse(b).value.header + payload, d, payload);
  }

  /** A stored reply header is short, and makes any payload a datagram that names its destination. */
  lemma ReplyNames(show: Host -> Bytes, header: Bytes, d: Dest, payload: Bytes)
    requires Names(show, header, d, [])
    ensures |header| <= 262 && Names(show, header + payload, d, payload)
  {
    var rsv, h :| Built(show, header, rsv, h, d, []);
    assert header == Header(rsv, h, d.port);
    assert Built(show, header + payload, rsv, h, d, payload);
  }

  const BUFFER: nat := 65536  // a reply is read behind the header, into what is left of this

  /** How much of a reply fits. */
  function Fitting(header: Bytes, payload: Bytes): Bytes
    requires |header| <= BUFFER
  {
    if |header| + |payload| <= BUFFER then payload else payload[..BUFFER - |header|]
  }

  /** One of the client's datagrams named `d` and carried `data`. */
  ghost predicate Asked(show: Host -> Bytes, received: seq<Bytes>, d: Dest, data: Bytes) {
    exists i :: 0 <= i < |received| && Names(show, received[i], d, data)
  }

  /** One of the client's datagrams named `d`. */
  ghost predicate Named(show: Host -> Bytes, received: seq<Bytes>, d: Dest) {
    exists data :: Asked(show, received, d, data)
  }

  lemma AskedStays(show: Host -> Bytes, received: seq<Bytes>, b: Bytes, d: Dest, data: Bytes)
    requires Asked(show, received, d, data)
    ensures Asked(show, received + [b], d, data)
  {
    var i :| 0 <= i < |received| && Names(show, received[i], d, data);
    assert Names(show, (received + [b])[i], d, data);
  }

  lemma NamedStays(show: Host -> Bytes, received: seq<Bytes>, b: Bytes, d: Dest)
    requires Named(show, received, d)
    ensures Named(show, received + [b], d)
  {
    var data :| Asked(show, received, d, data);
    AskedStays(show, received, b, d, data);
  }

  lemma AskedNow(show: Host -> Bytes, received: seq<Bytes>, b: Bytes, d: Dest, data: Bytes)
    requires Names(show, b, d, data)
    ensures Asked(show, received + [b], d, data) && Named(show, received + [b], d)
  {
    assert (received + [b])[|received|] == b;
    assert Asked(show, received + [b], d, data);
  }

  /** What a parsed datagram names and carries has been asked for once it is received. */
  lemma NamedBy(show: Host -> Bytes, received: seq<Bytes>, b: Bytes)
    requires Parse(b).Some?
    ensures
      var p := Parse(b).value;
      var d := DestOf(show, p);
      && Names(show, b, d, p.data) && Names(show, p.header, d, []) && b == p.header + p.data
      && Asked(show, received + [b], d, p.data) && Named(show, received + [b], d)
  {
    var p := Parse(b).value;
    var d := DestOf(show, p);
    NamesIff(show, b, d, p.data);
    AskedNow(show, received, b, d, p.data);
    HeaderNames(show, b, d, []);
    assert p.header + [] == p.header;
    ParsedIsBuilt(b);
  }

  /** Everything sent is the destination and the data of one of the client's datagrams. */
  ghost predicate AllAsked(show: Host -> Bytes, received: seq<Bytes>, sent: seq<(Dest, Bytes)>) {
    forall i :: 0 <= i < |sent| ==> Asked(show, received, sent[i].0, sent[i].1)
  }

  /** The answer names the destination the reply was read from, which the client had named, and carries the reply. */
  ghost predicate Answers(
    show: Host -> Bytes, received: seq<Bytes>, client: Option<Endpoint>, answer: (Endpoint, Bytes),
    reply: (Dest, Bytes)) {
    && client == Some(answer.0) && Named(show, received, reply.0)
    && exists payload :: payload <= reply.1 && Names(show, answer.1, reply.0, payload)
  }

  lemma AnswersNow(
    show: Host -> Bytes, received: seq<Bytes>, client: Endpoint, b: Bytes, d: Dest, fits: Bytes, payload: Bytes)
    requires Names(show, b, d, fits) && fits <= payload && Named(show, received, d)
    ensures Answers(show, received, Some(client), (client, b), (d, payload))
  {}

  datatype Phase = Live | Forgotten | Shut

  /** A flow and the goroutine that reads its socket: at work, out of the table, or with the socket closed. */
  datatype Pump = Pump(dest: Dest, header: Bytes, phase: Phase)

  /** One flow more: for `d`, with what comes before `data` in `b` as its reply header. */
  predicate Opened(was: seq<Pump>, now: seq<Pump>, b: Bytes, d: Dest, data: Bytes) {
    |now| == |was| + 1 && now[..|was|] == was
    && now[|was|].dest == d && now[|was|].phase == Live && now[|was|].header + data == b
  }

  /** The flow of `d` and the data are in hand; the flow is new, opened by `b`, exactly if there was none. */
  predicate InHand(
    was: seq<Pump>, flowsWas: map<Dest, nat>, now: seq<Pump>, flows: map<Dest, nat>, pending: Option<(nat, Bytes)>,
    b: Bytes, d: Dest, data: Bytes) {
    && d in flows && pending == Some((flows[d], data))
    && if d in flowsWas then now == was && flows == flowsWas
       else Opened(was, now, b, d, data) && flows == flowsWas[d := |was|]
  }

  /** The table holds the live pumps and no others, each under its own destination. */
  ghost predicate Tabled(show: Host -> Bytes, client: Option<Endpoint>, pumps: seq<Pump>, flows: map<Dest, nat>) {
    && (pumps != [] ==> client.Some?)
    && (forall p :: 0 <= p < |pumps| ==> Names(show, pumps[p].header, pumps[p].dest, []))
    && (forall p :: 0 <= p < |pumps| && pumps[p].phase == Live ==>
          pumps[p].dest in flows && flows[pumps[p].dest] == p)
    && (forall d :: d in flows ==> flows[d] < |pumps| && pumps[flows[d]].dest == d && pumps[flows[d]].phase == Live)
  }

  /** What has been sent, and what has been answered, is what the client asked for and its destinations replied. */
  ghost predicate Honoured(
    show: Host -> Bytes, client: Option<Endpoint>, pumps: seq<Pump>, received: seq<Bytes>,
    pending: Option<(nat, Bytes)>, sent: seq<(Dest, Bytes)>, answered: seq<(Endpoint, Bytes)>,
    replies: seq<(Dest, Bytes)>) {
    && (forall p :: 0 <= p < |pumps| ==> Named(show, received, pumps[p].dest))
    && (pending.Some? ==>
          pending.value.0 < |pumps| && Asked(show, received, pumps[pending.value.0].dest, pending.value.1))
    && AllAsked(show, received, sent)
    && |replies| == |answered|
    && (forall i :: 0 <= i < |answered| ==> Answers(show, received, client, answered[i], replies[i]))
  }

  lemma TableOpens(
    show: Host -> Bytes, client: Option<Endpoint>, pumps: seq<Pump>, flows: map<Dest, nat>, d: Dest, header: Bytes)
    requires Tabled(show, client, pumps, flows) && client.Some? && d !in flows && Names(show, header, d, [])
    ensures Tabled(show, client, pumps + [Pump(d, header, Live)], flows[d := |pumps|])
  {}

  lemma TableForgets(
    show: Host -> Bytes, client: Option<Endpoint>, pumps: seq<Pump>, flows: map<Dest, nat>, p: nat)
    requires Tabled(show, client, pumps, flows) && p < |pumps| && pumps[p].phase == Live
    ensures Tabled(show, client, pumps[p := pumps[p].(phase := Forgotten)], flows - {pumps[p].dest})
    ensures pumps[p].dest in flows && flows[pumps[p].dest] == p
    ensures forall q :: 0 <= q < |pumps| && q != p && pumps[q].phase == Live ==>
              pumps[q].dest in flows && pumps[q].dest != pumps[p].dest && flows[pumps[q].dest] == q
  {}

  /** One more of the client's datagrams: what was asked and answered before still is. */
  lemma HonouredNotes(
    show: Host -> Bytes, client: Option<Endpoint>, pumps: seq<Pump>, received: seq<Bytes>,
    pending: Option<(nat, Bytes)>, sent: seq<(Dest, Bytes)>, answered: seq<(Endpoint, Bytes)>,
    replies: seq<(Dest, Bytes)>, b: Bytes)
    requires Honoured(show, client, pumps, received, pending, sent, answered, replies)
    ensures Honoured(show, client, pumps, received + [b], pending, sent, answered, replies)
  {
    forall p | 0 <= p < |pumps|
      ensures Named(show, received + [b], pumps[p].dest)
    {
      NamedStays(show, received, b, pumps[p].dest);
    }
    if pending.Some? {
      AskedStays(show, received, b, pumps[pending.value.0].dest, pending.value.1);
    }
    forall i | 0 <= i < |sent|
      ensures Asked(show, received + [b], sent[i].0, sent[i].1)
    {
      AskedStays(show, received, b, sent[i].0, sent[i].1);
    }
    forall i | 0 <= i < |answered|
      ensures Answers(show, received + [b], client, answered[i], replies[i])
    {
      NamedStays(show, received, b, replies[i].0);
    }
  }

  /** The pumps' phases do not matter to what is owed, and a new one must have been asked for. */
  lemma HonouredPumps(
    show: Host -> Bytes, client: Option<Endpoint>, pumps: seq<Pump>, more: seq<Pump>, received: seq<Bytes>,
    pending: Option<(nat, Bytes)>, sent: seq<(Dest, Bytes)>, answered: seq<(Endpoint, Bytes)>,
    replies: seq<(Dest, Bytes)>)
    requires Honoured(show, client, pumps, received, pending, sent, answered, replies) && |pumps| <= |more|
    requires forall p :: 0 <= p < |pumps| ==> more[p].dest == pumps[p].dest
    requires forall p :: |pumps| <= p < |more| ==> Named(show, received, more[p].dest)
    ensures Honoured(show, client, more, received, pending, sent, answered, replies)
  {}

  /** Removal by destination of a live pump: the entry is its own, and the other live pumps keep theirs. */
  lemma ForgetsWell(
    show: Host -> Bytes, client: Option<Endpoint>, pumps: seq<Pump>, flows: map<Dest, nat>, received: seq<Bytes>,
    pending: Option<(nat, Bytes)>, sent: seq<(Dest, Bytes)>, answered: seq<(Endpoint, Bytes)>,
    replies: seq<(Dest, Bytes)>, p: nat)
    requires Tabled(show, client, pumps, flows) && p < |pumps| && pumps[p].phase == Live
    requires Honoured(show, client, pumps, received, pending, sent, answered, replies)
    ensures
      var more, fewer := pumps[p := pumps[p].(phase := Forgotten)], flows - {pumps[p].dest};
      && Tabled(show, client, more, fewer)
      && Honoured(show, client, more, received, pending, sent, answered, replies)
      && pumps[p].dest in flows && flows[pumps[p].dest] == p
      && OthersListed(more, fewer, p)
  {
    TableForgets(show, client, pumps, flows, p);
    HonouredPumps(show, client, pumps, pumps[p := pumps[p].(phase := Forgotten)], received, pending, sent, answered,
                  replies);
  }

  /** Every live pump but `p` is in the table under its own destination. */
  predicate OthersListed(pumps: seq<Pump>, flows: map<Dest, nat>, p: nat) {
    forall q :: 0 <= q < |pumps| && q != p && pumps[q].phase == Live ==>
      pumps[q].dest in flows && flows[pumps[q].dest] == q
  }

  /** A flow and data that were asked for may be taken in hand. */
  lemma HonouredTakes(
    show: Host -> Bytes, client: Option<Endpoint>, pumps: seq<Pump>, received: seq<Bytes>, sent: seq<(Dest, Bytes)>,
    answered: seq<(Endpoint, Bytes)>, replies: seq<(Dest, Bytes)>, flow: nat, data: Bytes)
    requires Honoured(show, client, pumps, received, None, sent, answered, replies)
    requires flow < |pumps| && Asked(show, received, pumps[flow].dest, data)
    ensures Honoured(show, client, pumps, received, Some((flow, data)), sent, answered, replies)
  {}

  class Relay {
    const show: Host -> Bytes
    var client: Option<Endpoint>
    var pumps: seq<Pump>                  // every flow ever opened
    var flows: map<Dest, nat>             // the table, by destination
    var pending: Option<(nat, Bytes)>     // the flow the serve loop has in hand, and what it is to send
    var sent: seq<(Dest, Bytes)>          // what went out to destinations
    var answered: seq<(Endpoint, Bytes)>  // what went back to the client
    ghost var received: seq<Bytes>        // the client's datagrams
    ghost var replies: seq<(Dest, Bytes)> // what was read from which destination

    ghost predicate Valid()
      reads this
    {
      Tabled(show, client, pumps, flows)
      && Honoured(show, client, pumps, received, pending, sent, answered, replies)
    }

    constructor (show: Host -> Bytes)
      ensures Valid() && client == None && pumps == [] && pending == None && sent == [] && answered == []
      ensures received == [] && replies == []
    {
      this.show := show;
      client, pumps, flows, pending, sent, answered := None, [], map[], None, [], [];
      received, replies := [], [];
    }

    /**
     One turn of the serve loop up to the send.  The first sender becomes the client and later strangers are
     ignored.  A datagram of the format that names a destination with a flow, or one that can be reached, leaves
     the loop with that destination's flow and the datagram's data in hand; a new flow's reply header is the
     datagram without its data.
     */
    method Receive(from: Endpoint, b: Bytes, reachable: bool)
      requires Valid() && pending == None
      modifies this
      ensures Valid() && answered == old(answered) && sent == old(sent) && replies == old(replies)
      ensures received == if client == Some(from) then old(received) + [b] else old(received)
      ensures client == if old(client).None? then Some(from) else old(client)
      ensures pending.Some? <==>
        exists d, data :: Names(show, b, d, data) && client == Some(from) && (d in old(flows) || reachable)
      ensures pending.Some? ==>
        exists d, data :: Names(show, b, d, data) && InHand(old(pumps), old(flows), pumps, flows, pending, b, d, data)
      ensures pending.None? ==> pumps == old(pumps) && flows == old(flows)
    {
      if client.None? {
        client := Some(from);
      } else if client.value != from {
        return;
      }
      HonouredNotes(show, client, pumps, received, pending, sent, answered, replies, b);
      received := received + [b];
      var p := Parse(b);
      if p.None? {
        forall d, data
          ensures !Names(show, b, d, data)
        {
          NamesIff(show, b, d, data);
        }
        return;
      }
      var d, data := DestOf(show, p.value), p.value.data;
      NamedBy(show, received[..|received| - 1], b);
      Forward(d, data, p.value.header, reachable);
      forall e, other | Names(show, b, e, other)
        ensures e == d && other == data
      {
        NamesOne(show, b, d, data, e, other);
      }
    }

    /** Takes the flow of `d`, opening it if it has none and can be reached. */
    method Forward(d: Dest, data: Bytes, header: Bytes, reachable: bool)
      requires Valid() && client.Some? && pending == None
      requires Names(show, header, d, []) && Named(show, received, d) && Asked(show, received, d, data)
      modifies this`flows, this`pumps, this`pending
      ensures Valid() && (pending.Some? <==> d in old(flows) || reachable)
      ensures pending.Some? ==> InHand(old(pumps), old(flows), pumps, flows, pending, header + data, d, data)
      ensures pending.None? ==> pumps == old(pumps) && flows == old(flows)
    {
      if d !in flows {
        if !reachable {
          return;
        }
        TableOpens(show, client, pumps, flows, d, header);
        HonouredPumps(show, client, pumps, pumps + [Pump(d, header, Live)], received, pending, sent, answered, replies);
        flows := flows[d := |pumps|];
        pumps := pumps + [Pump(d, header, Live)];
      }
      HonouredTakes(show, client, pumps, received, sent, answered, replies, flows[d], data);
      pending := Some((flows[d], data));
    }

    /** The send: it goes to the flow's destination, or nowhere if the pump has closed the socket meanwhile. */
    method Send()
      requires Valid() && pending.Some?
      modifies this`sent, this`pending
      ensures Valid() && pending == None
      ensures
        var flow, data := old(pending).value.0, old(pending).value.1;
        sent == old(sent) + if pumps[flow].phase == Shut then [] else [(pumps[flow].dest, data)]
    {
      var flow, data := pending.value.0, pending.value.1;
      if pumps[flow].phase != Shut {
        sent := sent + [(pumps[flow].dest, data)];
      }
      pending := None;
    }

    /** One reply from pump `p`'s destination: the client gets a datagram that names it and carries the reply. */
    method Reply(p: nat, payload: Bytes)
      requires Valid() && p < |pumps| && pumps[p].phase == Live
      modifies this`answered, this`replies
      ensures Valid() && |pumps[p].header| <= 262 && replies == old(replies) + [(pumps[p].dest, payload)]
      ensures |answered| == |old(answered)| + 1 && answered[..|old(answered)|] == old(answered)
      ensures client == Some(answered[|old(answered)|].0)
      ensures exists fits :: fits <= payload && Names(show, answered[|old(answered)|].1, pumps[p].dest, fits)
      ensures
        var whole := |pumps[p].header| + |payload|;
        |answered[|old(answered)|].1| == if whole <= 65536 then whole else 65536
    {
      var header, d := pumps[p].header, pumps[p].dest;
      ReplyNames(show, header, d, []);
      var fits := Fitting(header, payload);
      ReplyNames(show, header, d, fits);
      AnswersNow(show, received, client.value, header + fits, d, fits, payload);
      answered := answered + [(client.value, header + fits)];
      replies := replies + [(d, payload)];
    }

    /**
     A pump ends and removes its destination from the table.  Removal is by destination, yet the entry is
     always its own, and the other live pumps keep theirs.
     */
    method Forget(p: nat)
      requires Valid() && p < |pumps| && pumps[p].phase == Live
      modifies this`flows, this`pumps
      ensures Valid() && pumps == old(pumps)[p := old(pumps)[p].(phase := Forgotten)]
      ensures old(pumps)[p].dest in old(flows) && old(flows)[old(pumps)[p].dest] == p
      ensures flows == old(flows) - {old(pumps)[p].dest}
      ensures OthersListed(pumps, flows, p)
    {
      ForgetsWell(show, client, pumps, flows, received, pending, sent, answered, replies, p);
      flows := flows - {pumps[p].dest};
      pumps := pumps[p := pumps[p].(phase := Forgotten)];
    }

    /** A pump that has removed itself closes its socket. */
    method CloseSocket(p: nat)
      requires Valid() && p < |pumps| && pumps[p].phase == Forgotten
      modifies this`pumps
      ensures Valid() && pumps == old(pumps)[p := old(pumps)[p].(phase := Shut)]
    {
      ghost var more := pumps[p := pumps[p].(phase := Shut)];
      HonouredPumps(show, client, pumps, more, received, pending, sent, answered, replies);
      pumps := pumps[p := pumps[p].(phase := Shut)];
    }
  }

  /** Whatever has been received, sent and answered: nothing goes out that the client did not ask for. */
  lemma SentWasAsked(r: Relay, i: nat)
    requires r.Valid() && i < |r.sent|
    ensures exists k :: 0 <= k < |r.received| && Names(r.show, r.received[k], r.sent[i].0, r.sent[i].1)
  {
    assert Asked(r.show, r.received, r.sent[i].0, r.sent[i].1);
  }

  /** Every answer goes to the client, names a destination the client had named, and carries what was read from it. */
  lemma AnswerWasReplied(r: Relay, i: nat)
    requires r.Valid() && i < |r.answered|
    ensures i < |r.replies| && Answers(r.show, r.received, r.client, r.answered[i], r.replies[i])
  {}

  /** Two of the client's datagrams whose ports differ never go to one flow. */
  lemma PortsApart(r: Relay, h: Host, g: Host, port: nat, other: nat)
    requires r.Valid() && port != other
    requires Dest(r.show(h), port) in r.flows && Dest(r.show(g), other) in r.flows
    ensures r.flows[Dest(r.show(h), port)] != r.flows[Dest(r.show(g), other)]
  {}

  /** No two pumps are at work for one destination, whatever has been received, forgotten and reopened. */
  lemma OnePumpPerDest(r: Relay, p: nat, q: nat)
    requires r.Valid() && p < |r.pumps| && q < |r.pumps|
    requires r.pumps[p].phase == Live && r.pumps[q].phase == Live && r.pumps[p].dest == r.pumps[q].dest
    ensures p == q
  {}
}
