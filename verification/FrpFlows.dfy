/**
 The UDP flow table of one exposed frp port.  The accept loop opens one stream per source and
 adds it to the table; three parties remove from it: the accept loop when a write fails, a
 flow's reader when its stream ends, and the idle reaper.  Critical sections, closes that happen
 after the unlock, the visits of a reap pass, and the clock reading and the store of a touch are
 separate steps.
 */
module FrpFlows {
  import opened Basics

  type Key = Bytes

  const IDLE: int := 60_000_000_000  // udpIdleTimeout in nanoseconds

  /** The goroutine reading one flow's stream. */
  datatype Reader =
    | Unstarted
    | Reading
    | Timed(at: int)                // in touch, between the clock and the store
    | Leaving
    | Closing(target: Option<nat>)  // in remove, after the unlock
    | Exited

  /** A stream ever opened, with the flow it carries. */
  datatype Flow = Flow(key: Key, last: int, closed: bool, reader: Reader)

  datatype Loop =
    | Idle
    | Missed(key: Key)                // get returned nil
    | Opened(id: nat, stamped: bool)  // a stream in hand, not yet added; add stamps it before taking the lock
    | Using(id: nat)                  // a flow in hand
    | Timing(id: nat, at: int)        // in touch, between the clock and the store
    | Touched(id: nat)
    | Failed(id: nat)                 // the write failed
    | Shutting(target: Option<nat>)   // in remove, after the unlock
    | Returned

  /** `late` records history: the flows visited that have since been given a stamp from before the cutoff. */
  datatype Reap = Reap(cutoff: int, visited: set<Key>, late: set<Key>)

  /** `reap` is present while a reap pass holds the mutex. */
  datatype State = State(
    now: int, table: map<Key, nat>, flows: seq<Flow>, loop: Loop, reap: Option<Reap>)

  datatype Step =
    | Tick(now: int)
    | Hit(key: Key)
    | Miss(key: Key)
    | OpenFails(got: bool)  // no stream, or one that is closed again at once
    | Open
    | Stamp
    | Add
    | LoopClock                // touch: the clock
    | LoopStore                // touch: the store
    | WriteOk
    | WriteFails
    | LoopRemove
    | LoopClose
    | Return                   // the loop ends: closeAll
    | Receive(r: nat)          // a datagram from the far end sent on; touch: the clock
    | ReaderStore(r: nat)      // touch: the store
    | End(r: nat)              // the stream ends
    | ReaderRemove(r: nat)
    | ReaderClose(r: nat)
    | ReapStart(cutoff: int)
    | ReapVisit(key: Key)
    | ReapEnd

  const Initial := State(0, map[], [], Idle, None)

  predicate Unlocked(s: State) {
    s.reap == None
  }

  predicate Enabled(s: State, a: Step) {
    match a
    case Tick(now) => s.now <= now
    case Hit(key) => s.loop == Idle && Unlocked(s) && key in s.table
    case Miss(key) => s.loop == Idle && Unlocked(s) && key !in s.table
    case OpenFails(_) => s.loop.Missed?
    case Open => s.loop.Missed?
    case Stamp => s.loop.Opened? && !s.loop.stamped && s.loop.id < |s.flows|
    case Add => s.loop.Opened? && s.loop.stamped && Unlocked(s) && s.loop.id < |s.flows|
    case LoopClock => s.loop.Using?
    case LoopStore => s.loop.Timing? && s.loop.id < |s.flows|
    case WriteOk => s.loop.Touched?
    case WriteFails => s.loop.Touched?
    case LoopRemove => s.loop.Failed? && s.loop.id < |s.flows| && Unlocked(s)
    case LoopClose => s.loop.Shutting?
    case Return => s.loop == Idle && Unlocked(s)
    case Receive(r) => r < |s.flows| && s.flows[r].reader == Reading
    case ReaderStore(r) => r < |s.flows| && s.flows[r].reader.Timed?
    case End(r) => r < |s.flows| && s.flows[r].reader == Reading
    case ReaderRemove(r) => r < |s.flows| && s.flows[r].reader == Leaving && Unlocked(s)
    case ReaderClose(r) => r < |s.flows| && s.flows[r].reader.Closing?
    case ReapStart(cutoff) => Unlocked(s) && cutoff <= s.now - IDLE
    case ReapVisit(key) =>
      s.reap.Some? && key in s.table && s.table[key] < |s.flows| && key !in s.reap.value.visited
    case ReapEnd => s.reap.Some? && s.table.Keys <= s.reap.value.visited
  }

  function Lookup(s: State, key: Key): Option<nat> {
    if key in s.table then Some(s.table[key]) else None
  }

  function CloseFlow(flows: seq<Flow>, id: Option<nat>): seq<Flow> {
    if id.Some? && id.value < |flows| then flows[id.value := flows[id.value].(closed := true)] else flows
  }

  predicate InTable(s: State, id: nat) {
    id < |s.flows| && s.flows[id].key in s.table && s.table[s.flows[id].key] == id
  }

  function NoteLate(s: State, id: nat, at: int): Option<Reap>
    requires id < |s.flows|
  {
    if s.reap.Some? && at < s.reap.value.cutoff && InTable(s, id) && s.flows[id].key in s.reap.value.visited
    then Some(s.reap.value.(late := s.reap.value.late + {s.flows[id].key}))
    else s.reap
  }

  function Next(s: State, a: Step): State
    requires Enabled(s, a)
  {
    match a
    case Tick(now) => s.(now := now)
    case Hit(key) => s.(loop := Using(s.table[key]))
    case Miss(key) => s.(loop := Missed(key))
    case OpenFails(got) =>
      s.(loop := Idle,
         flows := if got then s.flows + [Flow(s.loop.key, s.now, true, Exited)] else s.flows)
    case Open =>
      s.(loop := Opened(|s.flows|, false), flows := s.flows + [Flow(s.loop.key, s.now, false, Unstarted)])
    case Stamp =>
      var id := s.loop.id;
      s.(loop := Opened(id, true), flows := s.flows[id := s.flows[id].(last := s.now)])
    case Add =>
      var id := s.loop.id;
      s.(loop := Using(id), table := s.table[s.flows[id].key := id],
         flows := s.flows[id := s.flows[id].(reader := Reading)])
    case LoopClock => s.(loop := Timing(s.loop.id, s.now))
    case LoopStore =>
      var id := s.loop.id;
      s.(loop := Touched(id), flows := s.flows[id := s.flows[id].(last := s.loop.at)],
         reap := NoteLate(s, id, s.loop.at))
    case WriteOk => s.(loop := Idle)
    case WriteFails => s.(loop := Failed(s.loop.id))
    case LoopRemove =>
      var key := s.flows[s.loop.id].key;
      s.(loop := Shutting(Lookup(s, key)), table := s.table - {key})
    case LoopClose => s.(loop := Idle, flows := CloseFlow(s.flows, s.loop.target))
    case Return =>
      s.(loop := Returned, table := map[],
         flows := seq(|s.flows|, i requires 0 <= i < |s.flows| =>
           if s.flows[i].key in s.table && s.table[s.flows[i].key] == i then s.flows[i].(closed := true)
           else s.flows[i]))
    case Receive(r) => s.(flows := s.flows[r := s.flows[r].(reader := Timed(s.now))])
    case ReaderStore(r) =>
      var at := s.flows[r].reader.at;
      s.(flows := s.flows[r := s.flows[r].(last := at, reader := Reading)], reap := NoteLate(s, r, at))
    case End(r) => s.(flows := s.flows[r := s.flows[r].(reader := Leaving)])
    case ReaderRemove(r) =>
      var key := s.flows[r].key;
      s.(table := s.table - {key}, flows := s.flows[r := s.flows[r].(reader := Closing(Lookup(s, key)))])
    case ReaderClose(r) =>
      var target := s.flows[r].reader.target;
      s.(flows := CloseFlow(s.flows[r := s.flows[r].(reader := Exited)], target))
    case ReapStart(cutoff) => s.(reap := Some(Reap(cutoff, {}, {})))
    case ReapVisit(key) =>
      var id := s.table[key];
      if s.flows[id].last < s.reap.value.cutoff
      then s.(table := s.table - {key}, flows := CloseFlow(s.flows, Some(id)))
      else s.(reap := Some(s.reap.value.(visited := s.reap.value.visited + {key})))
    case ReapEnd => s.(reap := None)
  }

  predicate Runs(s: State, run: seq<Step>)
    decreases |run|
  {
    run == [] || (Enabled(s, run[0]) && Runs(Next(s, run[0]), run[1..]))
  }

  function After(s: State, run: seq<Step>): State
    requires Runs(s, run)
    decreases |run|
  {
    if run == [] then s else After(Next(s, run[0]), run[1..])
  }

  // ------------------------------------------------------------------------
  // No stream is lost
  // ------------------------------------------------------------------------

  /** Opened by the accept loop and not yet added. */
  predicate InHand(s: State, id: nat) {
    s.loop.Opened? && s.loop.id == id
  }

  predicate Closer(s: State, r: nat, id: nat) {
    r < |s.flows| && s.flows[r].reader == Closing(Some(id))
  }

  /** Taken out of the table by someone whose next act is to close it. */
  ghost predicate BeingClosed(s: State, id: nat) {
    s.loop == Shutting(Some(id)) || exists r :: Closer(s, r, id)
  }

  ghost predicate Out(s: State, id: nat)
    requires id < |s.flows|
  {
    s.flows[id].closed || BeingClosed(s, id)
  }

  /** In the accept loop's hands, in the table under its own source, or out: one of the three and no more. */
  ghost predicate Accounted(s: State, id: nat)
    requires id < |s.flows|
  {
    if Out(s, id) then !InHand(s, id) && !InTable(s, id) else InHand(s, id) || InTable(s, id)
  }

  predicate EntryOk(s: State, k: Key, id: nat) {
    id < |s.flows| && s.flows[id].key == k
  }

  predicate HasFlow(p: Loop) {
    p.Using? || p.Timing? || p.Touched? || p.Failed?
  }

  /** Stamps are clock readings, stored or about to be. */
  predicate StampsOk(s: State) {
    && (s.loop.Timing? ==> s.loop.at <= s.now)
    && (forall r :: 0 <= r < |s.flows| ==>
          s.flows[r].last <= s.now && (s.flows[r].reader.Timed? ==> s.flows[r].reader.at <= s.now))
  }

  predicate TableOk(s: State) {
    && (forall k :: k in s.table ==> EntryOk(s, k, s.table[k]))
    && (s.loop.Missed? ==> s.loop.key !in s.table)
    && (s.loop.Opened? ==> s.loop.id < |s.flows| && s.flows[s.loop.id].key !in s.table
                            && s.flows[s.loop.id].reader == Unstarted)
    && (HasFlow(s.loop) ==> s.loop.id < |s.flows|
                            && (s.flows[s.loop.id].key in s.table ==> s.table[s.flows[s.loop.id].key] == s.loop.id))
    && (s.loop == Returned ==> s.table == map[])
  }

  predicate TargetsOk(s: State) {
    && (s.loop.Shutting? && s.loop.target.Some? ==> s.loop.target.value < |s.flows|)
    && (forall r :: 0 <= r < |s.flows| && s.flows[r].reader.Closing? && s.flows[r].reader.target.Some? ==>
          s.flows[r].reader.target.value < |s.flows|)
  }

  /** Between two visits the pass has left nothing behind it that was idle beyond the cutoff, late stamps apart. */
  predicate ReapOk(s: State) {
    s.reap.Some? ==>
      && s.reap.value.cutoff <= s.now - IDLE
      && forall k :: k in s.table && k in s.reap.value.visited && s.table[k] < |s.flows| ==>
           s.flows[s.table[k]].last >= s.reap.value.cutoff || k in s.reap.value.late
  }

  ghost predicate Inv(s: State) {
    && TableOk(s) && StampsOk(s) && TargetsOk(s) && ReapOk(s)
    && forall id :: 0 <= id < |s.flows| ==> Accounted(s, id)
  }

  predicate ReaderStep(a: Step) {
    a.Receive? || a.ReaderStore? || a.End? || a.ReaderRemove? || a.ReaderClose?
  }

  predicate ReapingStep(a: Step) {
    a.ReapStart? || a.ReapVisit? || a.ReapEnd?
  }

  lemma TableReaderStep(s: State, a: Step)
    requires TableOk(s) && Enabled(s, a) && ReaderStep(a)
    ensures TableOk(Next(s, a))
  {}

  lemma TableReapStep(s: State, a: Step)
    requires TableOk(s) && Enabled(s, a) && ReapingStep(a)
    ensures TableOk(Next(s, a))
  {}

  lemma TableStep(s: State, a: Step)
    requires TableOk(s) && Enabled(s, a) && !ReaderStep(a) && !ReapingStep(a)
    ensures TableOk(Next(s, a))
  {}

  lemma StampsStep(s: State, a: Step)
    requires StampsOk(s) && Enabled(s, a)
    ensures StampsOk(Next(s, a))
  {}

  lemma TargetsStep(s: State, a: Step)
    requires TableOk(s) && TargetsOk(s) && Enabled(s, a)
    ensures TargetsOk(Next(s, a))
  {}

  lemma ReapStep(s: State, a: Step)
    requires TableOk(s) && ReapOk(s) && Enabled(s, a)
    ensures ReapOk(Next(s, a))
  {}

  lemma AccountedReaderStep(s: State, a: Step, id: nat)
    requires TableOk(s) && Enabled(s, a) && ReaderStep(a) && id < |s.flows| && Accounted(s, id)
    ensures Accounted(Next(s, a), id)
  {
    var t := Next(s, a);
    if r :| Closer(s, r, id) {
      assert Closer(t, r, id) || t.flows[id].closed;
    }
    if r :| Closer(t, r, id) {
      assert Closer(s, r, id) || (a == ReaderRemove(r) && InTable(s, id));
    }
    if a.ReaderRemove? && InTable(s, id) && s.flows[id].key == s.flows[a.r].key {
      assert Closer(t, a.r, id);
    }
    if a.ReaderClose? && s.flows[a.r].reader.target == Some(id) {
      assert Closer(s, a.r, id);
    }
  }

  lemma AccountedStep(s: State, a: Step, id: nat)
    requires TableOk(s) && Enabled(s, a) && !ReaderStep(a) && id < |s.flows| && Accounted(s, id)
    ensures id < |Next(s, a).flows| && Accounted(Next(s, a), id)
  {
    var t := Next(s, a);
    if r :| Closer(s, r, id) {
      assert Closer(t, r, id);
    }
    if r :| Closer(t, r, id) {
      assert Closer(s, r, id);
    }
  }

  /**
   In every interleaving each stream ever opened is held by the accept loop, in the table under its
   own source, closed, or about to be closed by the party that removed it.
   */
  lemma {:induction false} NoStreamLeaks(s: State, run: seq<Step>)
    requires Inv(s) && Runs(s, run)
    ensures Inv(After(s, run))
    decreases |run|
  {
    if run != [] {
      var t := Next(s, run[0]);
      if ReaderStep(run[0]) {
        TableReaderStep(s, run[0]);
      } else if ReapingStep(run[0]) {
        TableReapStep(s, run[0]);
      } else {
        TableStep(s, run[0]);
      }
      StampsStep(s, run[0]);
      TargetsStep(s, run[0]);
      ReapStep(s, run[0]);
      forall id | 0 <= id < |t.flows|
        ensures Accounted(t, id)
      {
        if id == |s.flows| {
          assert forall r :: !Closer(t, r, id);
        } else if ReaderStep(run[0]) {
          AccountedReaderStep(s, run[0], id);
        } else {
          AccountedStep(s, run[0], id);
        }
      }
      NoStreamLeaks(t, run[1..]);
    }
  }

  /** The accept loop can return whenever it is between datagrams, and closes every flow in the table as it does. */
  lemma ReturnCloses(s: State)
    requires Inv(s) && s.loop == Idle && Unlocked(s)
    ensures
      Enabled(s, Return) && var t := Next(s, Return);
      && t.loop == Returned && t.table == map[] && |t.flows| == |s.flows|
      && forall id :: 0 <= id < |s.flows| ==> (t.flows[id].closed <==> s.flows[id].closed || InTable(s, id))
  {}

  /** When the accept loop has returned and no removal is half done, every stream is closed. */
  lemma {:induction false} NothingLeftOpen(run: seq<Step>, id: nat)
    requires Runs(Initial, run) && id < |After(Initial, run).flows|
    requires After(Initial, run).loop == Returned
    requires forall r :: 0 <= r < |After(Initial, run).flows| ==> !After(Initial, run).flows[r].reader.Closing?
    ensures After(Initial, run).flows[id].closed
  {
    NoStreamLeaks(Initial, run);
    assert Accounted(After(Initial, run), id);
  }

  // ------------------------------------------------------------------------
  // Each source has its own stream
  // ------------------------------------------------------------------------

  /** The source of the last datagram the accept loop has read: read off the run alone. */
  function LastSource(run: seq<Step>, before: Option<Key>): Option<Key>
    decreases |run|
  {
    if run == [] then before
    else LastSource(run[1..], if run[0].Hit? || run[0].Miss? then Some(run[0].key) else before)
  }

  /** The accept loop is looking for, opening or using the stream of source `k`. */
  predicate AtWorkFor(s: State, k: Option<Key>) {
    match s.loop
    case Missed(key) => k == Some(key)
    case Opened(id, _) => id < |s.flows| && k == Some(s.flows[id].key)
    case Using(id) => id < |s.flows| && k == Some(s.flows[id].key)
    case Timing(id, _) => id < |s.flows| && k == Some(s.flows[id].key)
    case Touched(id) => id < |s.flows| && k == Some(s.flows[id].key)
    case Failed(id) => id < |s.flows| && k == Some(s.flows[id].key)
    case _ => true
  }

  lemma AtWorkStep(s: State, a: Step, k: Option<Key>)
    requires TableOk(s) && Enabled(s, a) && AtWorkFor(s, k)
    ensures AtWorkFor(Next(s, a), if a.Hit? || a.Miss? then Some(a.key) else k)
  {}

  lemma {:induction false} AlwaysAtWorkFor(s: State, run: seq<Step>, k: Option<Key>)
    requires Inv(s) && Runs(s, run) && AtWorkFor(s, k)
    ensures AtWorkFor(After(s, run), LastSource(run, k))
    decreases |run|
  {
    if run != [] {
      AtWorkStep(s, run[0], k);
      NoStreamLeaks(s, [run[0]]);
      assert After(s, [run[0]]) == After(Next(s, run[0]), []);
      AlwaysAtWorkFor(Next(s, run[0]), run[1..], if run[0].Hit? || run[0].Miss? then Some(run[0].key) else k);
    }
  }

  /** A datagram is written to a stream opened for the address it came from, and no other. */
  lemma {:induction false} OwnStream(run: seq<Step>)
    requires Runs(Initial, run) && HasFlow(After(Initial, run).loop)
    ensures
      var s := After(Initial, run);
      s.loop.id < |s.flows| && LastSource(run, None) == Some(s.flows[s.loop.id].key)
  {
    AlwaysAtWorkFor(Initial, run, None);
  }

  // ------------------------------------------------------------------------
  // The reaper
  // ------------------------------------------------------------------------

  /**
   A reap pass closes exactly the flows it visits whose stamp is from before its cutoff, so only ones stamped
   longer ago than the timeout; when it ends every flow left has a later stamp or was given an older one since.
   */
  lemma {:induction false} ReapExact(run: seq<Step>, a: Step)
    requires Runs(Initial, run) && Enabled(After(Initial, run), a) && (a.ReapVisit? || a.ReapEnd?)
    ensures
      var s := After(Initial, run);
      var t := Next(s, a);
      && (forall id :: 0 <= id < |s.flows| && !s.flows[id].closed ==>
            (t.flows[id].closed <==>
             a.ReapVisit? && s.table[a.key] == id && s.flows[id].last < s.reap.value.cutoff))
      && s.reap.value.cutoff <= s.now - IDLE
      && (a.ReapEnd? ==> forall k :: k in t.table ==>
            t.table[k] < |t.flows|
            && (t.flows[t.table[k]].last >= s.reap.value.cutoff || k in s.reap.value.late))
  {
    NoStreamLeaks(Initial, run);
  }

  lemma LateStep(s: State, a: Step, k: Key)
    requires Enabled(s, a) && s.reap.Some? && Next(s, a).reap.Some?
    requires k !in s.reap.value.late && k in Next(s, a).reap.value.late
    ensures
      || (a == LoopStore && s.loop.at < s.reap.value.cutoff)
      || (a.ReaderStore? && s.flows[a.r].reader.at < s.reap.value.cutoff)
  {}

  /** A stamp only comes late if its party took longer than the timeout from the clock to the store. */
  lemma {:induction false} LateMeansSlow(run: seq<Step>, a: Step, k: Key)
    requires Runs(Initial, run) && Enabled(After(Initial, run), a) && After(Initial, run).reap.Some?
    requires Next(After(Initial, run), a).reap.Some? && k !in After(Initial, run).reap.value.late
    requires k in Next(After(Initial, run), a).reap.value.late
    ensures
      var s := After(Initial, run);
      || (a == LoopStore && s.loop.at < s.now - IDLE)
      || (a.ReaderStore? && s.flows[a.r].reader.at < s.now - IDLE)
  {
    NoStreamLeaks(Initial, run);
    LateStep(After(Initial, run), a, k);
  }

  /** A party is in touch, with a clock reading from before `v`. */
  predicate OlderPending(s: State, id: nat, v: int) {
    || (s.loop.Timing? && s.loop.id == id && s.loop.at < v)
    || (id < |s.flows| && s.flows[id].reader.Timed? && s.flows[id].reader.at < v)
  }

  predicate StampedFrom(s: State, id: nat, v: int) {
    id < |s.flows| && v <= s.flows[id].last && v <= s.now && !OlderPending(s, id, v)
  }

  lemma StampedStep(s: State, a: Step, id: nat, v: int)
    requires Enabled(s, a) && StampedFrom(s, id, v)
    ensures StampedFrom(Next(s, a), id, v)
  {}

  lemma {:induction false} StaysStamped(s: State, run: seq<Step>, id: nat, v: int)
    requires Runs(s, run) && StampedFrom(s, id, v)
    ensures StampedFrom(After(s, run), id, v)
    decreases |run|
  {
    if run != [] {
      StampedStep(s, run[0], id, v);
      StaysStamped(Next(s, run[0]), run[1..], id, v);
    }
  }

  /** The reaper's visit to `key` after `run` closes flow `id`. */
  predicate Reaps(s: State, run: seq<Step>, key: Key, id: nat) {
    && Runs(s, run) && Enabled(After(s, run), ReapVisit(key))
    && id < |After(s, run).flows| && !After(s, run).flows[id].closed
    && Next(After(s, run), ReapVisit(key)).flows[id].closed
  }

  /** A flow stamped at `v` is not reaped until the timeout has passed, unless an older stamp is still to be stored. */
  lemma {:induction false} UsedFlowSurvives(s: State, run: seq<Step>, key: Key, id: nat)
    requires Inv(s) && id < |s.flows| && !OlderPending(s, id, s.flows[id].last) && Reaps(s, run, key, id)
    ensures After(s, run).now > s.flows[id].last + 60_000_000_000
  {
    StaysStamped(s, run, id, s.flows[id].last);
    NoStreamLeaks(s, run);
  }

  predicate ReapsEarly(s: State, run: seq<Step>, key: Key, id: nat) {
    id < |s.flows| && Reaps(s, run, key, id) && After(s, run).now <= s.flows[id].last + 60_000_000_000
  }

  /** Lets the party with the older clock reading store it. */
  function Overtake(s: State, id: nat, v: int): Step
    requires OlderPending(s, id, v)
  {
    if s.loop.Timing? && s.loop.id == id && s.loop.at < v then LoopStore else ReaderStore(id)
  }

  /** What the store of an older stamp leaves as it was. */
  lemma Overtaken(s: State, id: nat, v: int)
    requires Inv(s) && InTable(s, id) && OlderPending(s, id, v)
    ensures
      var a := Overtake(s, id, v);
      Enabled(s, a) && var t := Next(s, a);
      && InTable(t, id) && t.now == s.now && t.flows[id].last < v && t.flows[id].key == s.flows[id].key
      && t.flows[id].closed == s.flows[id].closed
      && t.reap.Some? == s.reap.Some?
  {}

  /** The pass under way will leave flow `id` alone. */
  predicate Spared(s: State, id: nat) {
    && TableOk(s) && InTable(s, id) && !s.flows[id].closed
    && (s.reap.Some? ==> s.flows[id].key in s.reap.value.visited || s.flows[id].last >= s.reap.value.cutoff)
  }

  predicate SameFlow(s: State, t: State, id: nat) {
    && id < |s.flows| && id < |t.flows| && t.now == s.now
    && t.flows[id].last == s.flows[id].last && t.flows[id].key == s.flows[id].key
  }

  lemma VisitOther(s: State, id: nat, k: Key)
    requires Spared(s, id) && Enabled(s, ReapVisit(k))
    ensures Spared(Next(s, ReapVisit(k)), id) && SameFlow(s, Next(s, ReapVisit(k)), id)
    ensures
      var t := Next(s, ReapVisit(k));
      t.reap.Some? && t.table.Keys - t.reap.value.visited == s.table.Keys - s.reap.value.visited - {k}
  {
    TableReapStep(s, ReapVisit(k));
    assert EntryOk(s, k, s.table[k]);
  }

  lemma EndPass(s: State, id: nat)
    requires Spared(s, id) && s.reap.Some? && s.table.Keys - s.reap.value.visited == {}
    ensures Enabled(s, ReapEnd) && Spared(Next(s, ReapEnd), id) && SameFlow(s, Next(s, ReapEnd), id)
  {
    forall k | k in s.table.Keys
      ensures k in s.reap.value.visited
    {
      assert k !in s.table.Keys - s.reap.value.visited;
    }
    TableReapStep(s, ReapEnd);
  }

  lemma CanVisit(s: State, k: Key)
    requires TableOk(s) && s.reap.Some? && k in s.table.Keys - s.reap.value.visited
    ensures Enabled(s, ReapVisit(k))
  {
    assert EntryOk(s, k, s.table[k]);
  }

  lemma StepThen(s: State, a: Step, rest: seq<Step>)
    requires Enabled(s, a) && Runs(Next(s, a), rest)
    ensures Runs(s, [a] + rest) && After(s, [a] + rest) == After(Next(s, a), rest)
  {
    assert ([a] + rest)[1..] == rest;
  }

  /** A pass can be carried to its end. */
  lemma {:induction false} FinishPass(s: State, id: nat) returns (run: seq<Step>)
    requires Spared(s, id) && s.reap.Some?
    ensures Runs(s, run) && Spared(After(s, run), id) && Unlocked(After(s, run)) && SameFlow(s, After(s, run), id)
    decreases |s.table.Keys - s.reap.value.visited|
  {
    var left := s.table.Keys - s.reap.value.visited;
    if left == {} {
      EndPass(s, id);
      StepThen(s, ReapEnd, []);
      run := [ReapEnd] + [];
    } else {
      var k :| k in left;
      CanVisit(s, k);
      VisitOther(s, id, k);
      var rest := FinishPass(Next(s, ReapVisit(k)), id);
      StepThen(s, ReapVisit(k), rest);
      run := [ReapVisit(k)] + rest;
    }
  }

  lemma ReapedAt(s: State, id: nat) returns (run: seq<Step>)
    requires InTable(s, id) && Unlocked(s) && !s.flows[id].closed
    ensures Reaps(s, run, s.flows[id].key, id)
    ensures
      var due := s.flows[id].last + IDLE + 1;
      After(s, run).now == if s.now < due then due else s.now
  {
    var last := s.flows[id].last;
    var now := if s.now < last + IDLE + 1 then last + IDLE + 1 else s.now;
    var states := [s, s.(now := now), s.(now := now, reap := Some(Reap(last + 1, {}, {})))];
    run := [Tick(now), ReapStart(last + 1)];
    FollowAll(s, run, states);
  }

  /** Whether or not a pass is under way, the flow can be reaped once the timeout has passed since its stamp. */
  lemma {:induction false} ReapedOnceDue(s: State, id: nat) returns (run: seq<Step>)
    requires TableOk(s) && InTable(s, id) && !s.flows[id].closed
    ensures Reaps(s, run, s.flows[id].key, id)
    ensures
      var due := s.flows[id].last + IDLE + 1;
      After(s, run).now <= if s.now < due then due else s.now
  {
    var key := s.flows[id].key;
    if Unlocked(s) {
      run := ReapedAt(s, id);
    } else if Spared(s, id) {
      var first := FinishPass(s, id);
      var second := ReapedAt(After(s, first), id);
      RunsConcat(s, first, second);
      run := first + second;
    } else {
      run := [];
      assert Enabled(s, ReapVisit(key));
    }
  }

  /**
   A flow in the table can be reaped before the timeout has passed since its stamp exactly when a party is
   still to store an older one.
   */
  lemma {:induction false} ReapedEarlyIff(s: State, id: nat)
    requires Inv(s) && InTable(s, id) && s.now <= s.flows[id].last + 60_000_000_000
    ensures (exists run, key :: ReapsEarly(s, run, key, id)) <==> OlderPending(s, id, s.flows[id].last)
  {
    var v := s.flows[id].last;
    assert Accounted(s, id);
    if OlderPending(s, id, v) {
      var a := Overtake(s, id, v);
      Overtaken(s, id, v);
      var t := Next(s, a);
      NoStreamLeaks(s, [a]);
      assert After(s, [a]) == After(t, []);
      var rest := ReapedOnceDue(t, id);
      StepThen(s, a, rest);
      assert ReapsEarly(s, [a] + rest, s.flows[id].key, id);
    }
    if run, key :| ReapsEarly(s, run, key, id) {
      if !OlderPending(s, id, v) {
        UsedFlowSurvives(s, run, key, id);
      }
    }
  }

  // ------------------------------------------------------------------------
  // A reader removes by source, so it can evict a later flow
  // ------------------------------------------------------------------------

  /** A reader's removal takes another flow exactly when its own is already out and the source is back. */
  lemma EvictsAnother(s: State, r: nat)
    requires Inv(s) && Enabled(s, ReaderRemove(r))
    ensures
      (exists id: nat :: id != r && Next(s, ReaderRemove(r)).flows[r].reader == Closing(Some(id))) <==>
      (s.flows[r].key in s.table && Out(s, r))
  {
    assert Accounted(s, r);
    var key := s.flows[r].key;
    if key in s.table && s.table[key] != r {
      assert Next(s, ReaderRemove(r)).flows[r].reader == Closing(Some(s.table[key]));
    }
  }

  /** The accept loop's removal takes its own flow or none: only the loop adds, and it has not since. */
  lemma {:induction false} LoopRemovesOwn(run: seq<Step>)
    requires Runs(Initial, run) && Enabled(After(Initial, run), LoopRemove)
    ensures
      var s := After(Initial, run);
      Next(s, LoopRemove).loop == Shutting(if Out(s, s.loop.id) then None else Some(s.loop.id))
  {
    NoStreamLeaks(Initial, run);
    assert Accounted(After(Initial, run), After(Initial, run).loop.id);
  }

  lemma {:induction false} FollowAll(s: State, run: seq<Step>, states: seq<State>)
    requires |states| == |run| + 1 && states[0] == s
    requires forall i :: 0 <= i < |run| ==> Enabled(states[i], run[i]) && states[i + 1] == Next(states[i], run[i])
    ensures Runs(s, run) && After(s, run) == states[|run|]
    decreases |run|
  {
    if run != [] {
      FollowAll(states[1], run[1..], states[1..]);
    }
  }

  lemma {:induction false} RunsConcat(s: State, first: seq<Step>, second: seq<Step>)
    requires Runs(s, first) && Runs(After(s, first), second)
    ensures Runs(s, first + second) && After(s, first + second) == After(After(s, first), second)
    decreases |first|
  {
    if first == [] {
      assert first + second == second;
    } else {
      RunsConcat(Next(s, first[0]), first[1..], second);
      assert (first + second)[1..] == first[1..] + second;
    }
  }

  /** A source that is not in the table sends a datagram: its flow is opened, added and touched. */
  lemma NewFlow(s: State, key: Key) returns (run: seq<Step>)
    requires s.loop == Idle && Unlocked(s) && key !in s.table
    ensures Runs(s, run)
    ensures
      var n := |s.flows|;
      After(s, run) ==
        s.(table := s.table[key := n], flows := s.flows + [Flow(key, s.now, false, Reading)], loop := Touched(n))
  {
    var n, opening := |s.flows|, s.flows + [Flow(key, s.now, false, Unstarted)];
    var added := s.(table := s.table[key := n], flows := s.flows + [Flow(key, s.now, false, Reading)]);
    var states := [
      s,
      s.(loop := Missed(key)),
      s.(loop := Opened(n, false), flows := opening),
      s.(loop := Opened(n, true), flows := opening),
      added.(loop := Using(n)),
      added.(loop := Timing(n, s.now)),
      added.(loop := Touched(n))];
    run := [Miss(key), Open, Stamp, Add, LoopClock, LoopStore];
    FollowAll(s, run, states);
  }

  /** A stream that could not be opened, or could not be told its target, is closed and the next source is served. */
  lemma {:induction false} GoesOnAfterFailedOpen(s: State, got: bool, key: Key) returns (run: seq<Step>)
    requires s.loop.Missed? && Unlocked(s) && key !in s.table
    ensures run != [] && run[0] == OpenFails(got) && Runs(s, run)
    ensures
      var t := After(s, run);
      && key in t.table && t.table[key] == |t.flows| - 1 && t.table == s.table[key := |t.flows| - 1]
      && |t.flows| == |s.flows| + (if got then 2 else 1)
      && (got ==> t.flows[|s.flows|].closed && t.flows[|s.flows|].key == s.loop.key)
  {
    var t := Next(s, OpenFails(got));
    var rest := NewFlow(t, key);
    StepThen(s, OpenFails(got), rest);
    run := [OpenFails(got)] + rest;
  }

  function Lone(table: map<Key, nat>, flows: seq<Flow>, loop: Loop): State {
    State(0, table, flows, loop, None)
  }

  lemma WriteErrorRemoves(s: State, key: Key) returns (run: seq<Step>)
    requires s == Lone(map[key := 0], [Flow(key, 0, false, Reading)], Touched(0))
    ensures Runs(s, run)
    ensures After(s, run) == Lone(map[], [Flow(key, 0, true, Reading)], Idle)
  {
    var live := [Flow(key, 0, false, Reading)];
    var states := [
      s,
      Lone(map[key := 0], live, Failed(0)),
      Lone(map[], live, Shutting(Some(0))),
      Lone(map[], [Flow(key, 0, true, Reading)], Idle)];
    run := [WriteFails, LoopRemove, LoopClose];
    assert Next(states[1], run[1]) == states[2];
    FollowAll(s, run, states);
  }

  /** After a write error on its first stream a source's flow is gone; that stream's reader is still there. */
  lemma FirstStreamFails(key: Key) returns (run: seq<Step>)
    ensures Runs(Initial, run)
    ensures After(Initial, run) == Lone(map[], [Flow(key, 0, true, Reading)], Idle)
  {
    var first := NewFlow(Initial, key);
    var second := WriteErrorRemoves(After(Initial, first), key);
    RunsConcat(Initial, first, second);
    run := first + second;
  }

  lemma StaleReaderEnds(s: State, key: Key) returns (run: seq<Step>)
    requires s == Lone(map[key := 1], [Flow(key, 0, true, Reading), Flow(key, 0, false, Reading)], Touched(1))
    ensures Runs(s, run)
    ensures After(s, run) == Lone(map[], [Flow(key, 0, true, Exited), Flow(key, 0, true, Reading)], Touched(1))
  {
    var live := Flow(key, 0, false, Reading);
    var states := [
      s,
      Lone(map[key := 1], [Flow(key, 0, true, Leaving), live], Touched(1)),
      Lone(map[], [Flow(key, 0, true, Closing(Some(1))), live], Touched(1)),
      Lone(map[], [Flow(key, 0, true, Exited), Flow(key, 0, true, Reading)], Touched(1))];
    run := [End(0), ReaderRemove(0), ReaderClose(0)];
    assert Next(states[1], run[1]) == states[2];
    FollowAll(s, run, states);
  }

  /**
   A source whose first stream failed on a write comes back on a second one; the first stream's reader
   then closes the second, which is not idle and has not failed.
   */
  lemma StaleReaderEvicts(key: Key) returns (run: seq<Step>)
    ensures Runs(Initial, run)
    ensures
      var s := After(Initial, run);
      |s.flows| == 2 && s.flows[1].closed && s.flows[1].last == s.now && s.flows[1].reader == Reading
  {
    var first := FirstStreamFails(key);
    var second := NewFlow(After(Initial, first), key);
    RunsConcat(Initial, first, second);
    var third := StaleReaderEnds(After(Initial, first + second), key);
    RunsConcat(Initial, first + second, third);
    run := first + second + third;
  }

  // ------------------------------------------------------------------------
  // A stamp that is stored late
  // ------------------------------------------------------------------------

  lemma ClocksCross(s: State, key: Key) returns (run: seq<Step>)
    requires s == Lone(map[key := 0], [Flow(key, 0, false, Reading)], Touched(0))
    ensures Runs(s, run)
    ensures After(s, run) == State(1, map[key := 0], [Flow(key, 1, false, Timed(0))], Touched(0), None)
  {
    var flow, table := Flow(key, 0, false, Timed(0)), map[key := 0];
    var states := [
      s,
      s.(loop := Idle),
      Lone(table, [flow], Idle),
      State(1, table, [flow], Idle, None),
      State(1, table, [flow], Using(0), None),
      State(1, table, [flow], Timing(0, 1), None),
      State(1, table, [flow.(last := 1)], Touched(0), None)];
    run := [WriteOk, Receive(0), Tick(1), Hit(key), LoopClock, LoopStore];
    FollowAll(s, run, states);
  }

  /** The reader has read the clock at 0 when the loop stamps the flow at 1; storing 0 then gets it reaped early. */
  lemma LateStampReaps(key: Key) returns (run: seq<Step>)
    ensures Runs(Initial, run)
    ensures
      var s := After(Initial, run);
      |s.flows| == 1 && s.flows[0].last == s.now && exists more, k :: ReapsEarly(s, more, k, 0)
  {
    var first := NewFlow(Initial, key);
    var second := ClocksCross(After(Initial, first), key);
    RunsConcat(Initial, first, second);
    run := first + second;
    NoStreamLeaks(Initial, run);
    ReapedEarlyIff(After(Initial, run), 0);
  }
}
