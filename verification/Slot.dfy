/**
 The slot that holds the one live client.  The rathole server (`current`) and the
 frp server (`session`) follow the same rule: a mutex guards the slot, a new client
 closes and replaces the old one, and a handler whose client has ended clears the
 slot only if the slot still holds that client.  Handlers run concurrently, so the
 rule is stated over every interleaving of their critical sections.
 */
module Slot {
  import opened Basics

  /** Where the goroutine that installed a client stands. */
  datatype Phase =
    | Serving   // installed; the session is being driven
    | Retiring  // the session ended; the second critical section is still to come
    | Left      // the second critical section is done; its own close is still to come
    | Gone      // returned

  datatype Handler = Handler(phase: Phase, closed: bool)

  /** `handlers` lists the clients in the order in which they were installed. */
  datatype State = State(current: Option<nat>, handlers: seq<Handler>)

  datatype Step =
    | Install
    | Die(i: nat)    // the peer or the network ends the session
    | Exit(i: nat)   // the driving loop returns
    | Leave(i: nat)  // second critical section
    | Close(i: nat)  // the handler's own close

  predicate Enabled(s: State, a: Step) {
    match a
    case Install => true
    case Die(i) => i < |s.handlers|
    case Exit(i) => i < |s.handlers| && s.handlers[i].phase == Serving
    case Leave(i) => i < |s.handlers| && s.handlers[i].phase == Retiring
    case Close(i) => i < |s.handlers| && s.handlers[i].phase == Left
  }

  function Next(s: State, a: Step): State
    requires Enabled(s, a)
  {
    match a
    case Install =>
      var handlers := if s.current.Some? && s.current.value < |s.handlers|
                      then s.handlers[s.current.value := s.handlers[s.current.value].(closed := true)]
                      else s.handlers;
      State(Some(|handlers|), handlers + [Handler(Serving, false)])
    case Die(i) => s.(handlers := s.handlers[i := s.handlers[i].(closed := true)])
    case Exit(i) => s.(handlers := s.handlers[i := s.handlers[i].(phase := Retiring)])
    case Leave(i) =>
      State(if s.current == Some(i) then None else s.current,
            s.handlers[i := s.handlers[i].(phase := Left)])
    case Close(i) => s.(handlers := s.handlers[i := Handler(Gone, true)])
  }

  const Initial := State(None, [])

  predicate Runs(s: State, run: seq<Step>)
    decreases |run|
  {
    run == [] || (Enabled(s, run[0]) && Runs(Next(s, run[0]), run[1..]))
  }

  function After(s: State, run: seq<Step>): State
    requires Runs(s, run)
    decreases |run|
  {
    if run == [] then s else After(Next(s, run[0]), run[1..])
  }

  /** The slot is empty or holds the newest client. */
  predicate NewestOrEmpty(s: State) {
    s.current.Some? ==> s.current.value == |s.handlers| - 1
  }

  /** A client outside the slot is closed, unless its handler is between leaving the slot and closing. */
  predicate OthersClosed(s: State) {
    forall i :: 0 <= i < |s.handlers| && s.current != Some(i) ==>
      s.handlers[i].closed || s.handlers[i].phase == Left
  }

  /** The client in the slot has not yet run its second critical section. */
  predicate CurrentPresent(s: State) {
    s.current.Some? ==>
      s.current.value < |s.handlers| && s.handlers[s.current.value].phase in {Serving, Retiring}
  }

  /** The newest client is in the slot until its handler has run its second critical section. */
  predicate NewestPresent(s: State) {
    s.handlers != [] && s.handlers[|s.handlers| - 1].phase in {Serving, Retiring} ==>
      s.current == Some(|s.handlers| - 1)
  }

  predicate Inv(s: State) {
    NewestOrEmpty(s) && OthersClosed(s) && CurrentPresent(s) && NewestPresent(s)
  }

  lemma {:induction false} SlotAlwaysSound(s: State, run: seq<Step>)
    requires Inv(s) && Runs(s, run)
    ensures Inv(After(s, run))
    decreases |run|
  {
    if run != [] {
      SlotAlwaysSound(Next(s, run[0]), run[1..]);
    }
  }

  /** Only a client's own handler empties the slot, and nothing but a newer client replaces it. */
  lemma OnlyOwnerClears(s: State, a: Step)
    requires Inv(s) && Enabled(s, a) && s.current.Some? && Next(s, a).current != s.current
    ensures Next(s, a).current == None ==> a == Leave(s.current.value)
    ensures Next(s, a).current.Some? ==>
      a == Install && Next(s, a).current.value > s.current.value && Next(s, a).handlers[s.current.value].closed
  {}

  // ------------------------------------------------------------------------
  // frp: the handler waits for its session to close before it leaves the slot.
  // ------------------------------------------------------------------------

  predicate WaitsForClose(s: State, a: Step) {
    a.Exit? && Enabled(s, a) ==> s.handlers[a.i].closed
  }

  predicate FrpRuns(s: State, run: seq<Step>)
    decreases |run|
  {
    run == [] || (Enabled(s, run[0]) && WaitsForClose(s, run[0]) && FrpRuns(Next(s, run[0]), run[1..]))
  }

  predicate FrpInv(s: State) {
    && Inv(s)
    && (forall i :: 0 <= i < |s.handlers| ==> s.handlers[i].closed || s.handlers[i].phase == Serving)
    && (forall i :: 0 <= i < |s.handlers| && s.current != Some(i) ==> s.handlers[i].closed)
  }

  /** In frp every session but the one in the slot is closed, with no tail to except. */
  lemma {:induction false} FrpOthersAlwaysClosed(s: State, run: seq<Step>)
    requires FrpInv(s) && FrpRuns(s, run)
    ensures Runs(s, run) && FrpInv(After(s, run))
    decreases |run|
  {
    if run != [] {
      FrpOthersAlwaysClosed(Next(s, run[0]), run[1..]);
    }
  }

  /** A session in the slot that dies is retired by its own handler: the slot is then empty. */
  lemma {:induction false} FrpRetiresDeadSession(s: State, i: nat) returns (run: seq<Step>)
    requires s.current == Some(i) && i < |s.handlers| && s.handlers[i].phase == Serving
    ensures run != [] && run[0] == Die(i) && FrpRuns(s, run) && Runs(s, run)
    ensures After(s, run).current == None && i < |After(s, run).handlers| && After(s, run).handlers[i].closed
  {
    var t := Next(s, Die(i));
    var u := Next(t, Exit(i));
    run := [Die(i), Exit(i), Leave(i)];
    assert run[1..] == [Exit(i), Leave(i)] && [Exit(i), Leave(i)][1..] == [Leave(i)];
    assert FrpRuns(u, [Leave(i)]) && Runs(u, [Leave(i)]);
    assert After(u, [Leave(i)]) == After(Next(u, Leave(i)), []);
    assert FrpRuns(t, run[1..]) && Runs(t, run[1..]) && After(t, run[1..]) == After(u, [Leave(i)]);
    assert After(s, run) == After(t, run[1..]);
  }

  // ------------------------------------------------------------------------
  // The critical sections, on objects.
  // ------------------------------------------------------------------------

  class Client {
    var closed: bool

    constructor ()
      ensures !closed
    {
      closed := false;
    }

    /** Idempotent, like the sync.Once around it. */
    method Close()
      modifies this
      ensures closed
    {
      closed := true;
    }
  }

  class Server {
    var current: Client?
    ghost var installed: seq<Client>
    ghost var phases: seq<Phase>

    ghost predicate Valid()
      reads this
    {
      && |phases| == |installed|
      && (forall i, j :: 0 <= i < j < |installed| ==> installed[i] != installed[j])
      && (current != null ==> current in installed)
    }

    ghost function IndexOf(c: Client): (i: nat)
      requires Valid() && c in installed
      reads this
      ensures i < |installed| && installed[i] == c
    {
      var i :| 0 <= i < |installed| && installed[i] == c;
      i
    }

    /** The slot and its clients as a value, clients numbered in order of installation. */
    ghost function View(): State
      requires Valid()
      reads this, installed
    {
      State(if current == null then None else Some(IndexOf(current)),
            seq(|installed|, i requires 0 <= i < |installed| && |phases| == |installed| reads this, installed =>
              Handler(phases[i], installed[i].closed)))
    }

    constructor ()
      ensures Valid() && installed == [] && View() == Initial
    {
      current := null;
      installed, phases := [], [];
    }

    /** First critical section: close the previous client, if any, and take its place. */
    method Install(c: Client)
      requires Valid() && c !in installed && !c.closed
      modifies this, installed
      ensures Valid() && installed == old(installed) + [c] && current == c
      ensures View() == Next(old(View()), Step.Install)
    {
      if current != null {
        current.Close();
      }
      current := c;
      installed, phases := installed + [c], phases + [Serving];
    }

    /** Second critical section: clear the slot only if it still holds `c`. */
    method Leave(c: Client)
      requires Valid() && c in installed && phases[IndexOf(c)] == Retiring
      modifies this
      ensures Valid() && installed == old(installed)
      ensures View() == Next(old(View()), Step.Leave(old(IndexOf(c))))
    {
      ghost var i := IndexOf(c);
      if current == c {
        current := null;
      }
      phases := phases[i := Left];
    }
  }
}
