/**
 Traffic totals that survive restarts.  A process counts from zero; its collector starts from the total on
 file and writes that base plus the live count, to a temporary file that it then renames.  A configuration
 reload starts a second collector in the same process and does not wait for the first one's last write; the
 two share the temporary file.  One direction is modelled, the other is alike.
 */
module Totals {
  import opened Basics

  /**
   A total.  The rest records history: `truth`, the bytes that all processes had counted when it was taken, on
   top of what the file started with, and `repeated`, the bytes it holds twice over less those it lacks.
   */
  datatype Reading = Reading(value: nat, truth: nat, repeated: int)

  /** `taken` is a snapshot not yet written; `written` says that the temporary file is this collector's to rename. */
  datatype Collector = Collector(base: nat, repeated: int, taken: Option<Reading>, written: bool)

  /**
   `live` is the process's counter.  `origin` and `counted` record history: the truth on file when the process
   started, and the bytes it has counted since, without wrapping.
   */
  datatype State = State(
    live: nat, collectors: seq<Collector>, tmp: Option<Reading>, file: Option<Reading>,
    origin: nat, counted: nat)

  datatype Step =
    | Launch(read: bool)  // a new process, with counters at zero and one collector; the file may not be readable
    | Add(n: nat)         // AddBytes
    | Reload(read: bool)  // one more collector in the same process
    | Snap(k: nat)        // a collector takes a snapshot,
    | WriteTmp(k: nat)    // writes it to the temporary file,
    | WriteFails(k: nat)
    | Rename(k: nat)      // and renames that, unless another collector already has
    | RenameFails(k: nat)

  const Empty := State(0, [], None, None, 0, 0)

  /** A missing file counts as zero. */
  function OnFile(file: Option<Reading>): Reading {
    if file.Some? then file.value else Reading(0, 0, 0)
  }

  predicate Idle(s: State, k: nat) {
    k < |s.collectors| && s.collectors[k].taken.None? && !s.collectors[k].written
  }

  predicate Enabled(s: State, a: Step) {
    match a
    case Snap(k) => Idle(s, k)
    case WriteTmp(k) => k < |s.collectors| && s.collectors[k].taken.Some?
    case WriteFails(k) => k < |s.collectors| && s.collectors[k].taken.Some?
    case Rename(k) => k < |s.collectors| && s.collectors[k].written
    case RenameFails(k) => k < |s.collectors| && s.collectors[k].written
    case _ => true
  }

  function Snapshot(s: State, c: Collector): Reading {
    Reading(Wrap(c.base + s.live), s.origin + s.counted, c.repeated)
  }

  /** A collector of a process that started at `origin`: it goes on from the file, or from zero if it cannot read it. */
  function Start(s: State, origin: nat, read: bool): Collector {
    var f := OnFile(s.file);
    if read then Collector(f.value, f.repeated + (f.truth - origin), None, false)
    else Collector(0, 0 - origin, None, false)
  }

  function SetCollector(s: State, k: nat, c: Collector): State
    requires k < |s.collectors|
  {
    s.(collectors := s.collectors[k := c])
  }

  function Next(s: State, a: Step): State
    requires Enabled(s, a)
  {
    match a
    case Launch(read) =>
      var origin := OnFile(s.file).truth;
      s.(live := 0, collectors := [Start(s, origin, read)], origin := origin, counted := 0)
    case Add(n) => s.(live := Wrap(s.live + n), counted := s.counted + n)
    case Reload(read) => s.(collectors := s.collectors + [Start(s, s.origin, read)])
    case Snap(k) =>
      SetCollector(s, k, s.collectors[k].(taken := Some(Snapshot(s, s.collectors[k]))))
    case WriteTmp(k) =>
      SetCollector(s, k, s.collectors[k].(taken := None, written := true)).(tmp := s.collectors[k].taken)
    case WriteFails(k) => SetCollector(s, k, s.collectors[k].(taken := None))
    case Rename(k) =>
      SetCollector(s, k, s.collectors[k].(written := false))
        .(tmp := None, file := if s.tmp.Some? then s.tmp else s.file)
    case RenameFails(k) => SetCollector(s, k, s.collectors[k].(written := false))
  }

  predicate Runs(s: State, run: seq<Step>)
    decreases |run|
  {
    run == [] || (Enabled(s, run[0]) && Runs(Next(s, run[0]), run[1..]))
  }

  function After(s: State, run: seq<Step>): State
    requires Runs(s, run)
    decreases |run|
  {
    if run == [] then s else After(Next(s, run[0]), run[1..])
  }

  /** Before the first process, with whatever the file already holds. */
  predicate Begins(s: State) {
    && s.live == 0 && s.collectors == [] && s.tmp == None && s.counted == 0
    && OnFile(s.file).truth == OnFile(s.file).value < U64 && OnFile(s.file).repeated == 0
  }

  ghost predicate ReadingOk(r: Reading) {
    Same(r.value, r.truth + r.repeated)
  }

  ghost predicate CollectorOk(origin: nat, c: Collector) {
    Same(c.base, origin + c.repeated) && (c.taken.Some? ==> ReadingOk(c.taken.value))
  }

  ghost predicate Inv(s: State) {
    && Same(s.live, s.counted)
    && (forall k :: 0 <= k < |s.collectors| ==> CollectorOk(s.origin, s.collectors[k]))
    && (s.tmp.Some? ==> ReadingOk(s.tmp.value))
    && ReadingOk(OnFile(s.file))
  }

  lemma BeginsInv(s: State)
    requires Begins(s)
    ensures Inv(s)
  {
    SameRefl(0);
    SameRefl(OnFile(s.file).value);
  }

  lemma SnapshotOk(s: State, c: Collector)
    requires Same(s.live, s.counted) && CollectorOk(s.origin, c)
    ensures ReadingOk(Snapshot(s, c))
  {
    SameWrapped(c.base + s.live);
    SameAdd(c.base, s.origin + c.repeated, s.live, s.counted);
    SameTrans(Wrap(c.base + s.live), c.base + s.live, s.origin + c.repeated + s.counted);
    assert s.origin + c.repeated + s.counted == s.origin + s.counted + c.repeated;
  }

  lemma StartOk(s: State, origin: nat, read: bool)
    requires ReadingOk(OnFile(s.file))
    ensures CollectorOk(origin, Start(s, origin, read))
  {
    var f := OnFile(s.file);
    SameRefl(0);
    assert origin + (f.repeated + (f.truth - origin)) == f.truth + f.repeated;
  }

  lemma InvStep(s: State, a: Step)
    requires Inv(s) && Enabled(s, a)
    ensures Inv(Next(s, a))
  {
    match a {
      case Launch(read) =>
        SameRefl(0);
        StartOk(s, OnFile(s.file).truth, read);
      case Add(n) =>
        SameWrapped(s.live + n);
        SameRefl(n);
        SameAdd(s.live, s.counted, n, n);
        SameTrans(Wrap(s.live + n), s.live + n, s.counted + n);
      case Reload(read) => StartOk(s, s.origin, read);
      case Snap(k) =>
        assert CollectorOk(s.origin, s.collectors[k]);
        SnapshotOk(s, s.collectors[k]);
      case WriteTmp(k) => assert CollectorOk(s.origin, s.collectors[k]);
      case WriteFails(k) => assert CollectorOk(s.origin, s.collectors[k]);
      case Rename(k) => assert CollectorOk(s.origin, s.collectors[k]);
      case RenameFails(k) => assert CollectorOk(s.origin, s.collectors[k]);
    }
  }

  lemma {:induction false} AlwaysInv(s: State, run: seq<Step>)
    requires Inv(s) && Runs(s, run)
    ensures Inv(After(s, run))
    decreases |run|
  {
    if run != [] {
      InvStep(s, run[0]);
      AlwaysInv(Next(s, run[0]), run[1..]);
    }
  }

  // ------------------------------------------------------------------------
  // Which writes leave the file right
  // ------------------------------------------------------------------------

  /** The file holds the bytes counted when its snapshot was taken. */
  ghost predicate Right(s: State) {
    Same(OnFile(s.file).value, OnFile(s.file).truth)
  }

  lemma RightIff(s: State)
    requires Inv(s)
    ensures Right(s) <==> Same(OnFile(s.file).repeated, 0)
  {
    var f := OnFile(s.file);
    SameSym(f.value, f.truth + f.repeated);
    SameWithout(f.value, f.truth, f.repeated);
    if Same(f.value, f.truth) {
      SameSym(f.value, f.truth);
    }
    if Same(f.truth, f.value) {
      SameSym(f.truth, f.value);
    }
  }

  /** The file is right exactly when it holds nothing twice over and lacks nothing, modulo 2^64. */
  lemma {:induction false} TruthIffNothingShownTwice(s: State, run: seq<Step>)
    requires Begins(s) && Runs(s, run)
    ensures Right(After(s, run)) <==> Same(OnFile(After(s, run).file).repeated, 0)
  {
    BeginsInv(s);
    AlwaysInv(s, run);
    RightIff(After(s, run));
  }

  /** A whole write of collector `k` with nothing in between. */
  function Written(s: State, k: nat): State
    requires Idle(s, k)
  {
    Next(Next(Next(s, Snap(k)), WriteTmp(k)), Rename(k))
  }

  lemma WrittenIs(s: State, k: nat)
    requires Idle(s, k)
    ensures Written(s, k) == s.(tmp := None, file := Some(Snapshot(s, s.collectors[k])))
  {
    assert Written(s, k).collectors == s.collectors;
  }

  /** A whole write leaves the file right exactly when its collector's base holds nothing twice and lacks nothing. */
  lemma {:induction false} WriteRightIff(s: State, run: seq<Step>, k: nat)
    requires Begins(s) && Runs(s, run) && Idle(After(s, run), k)
    ensures Right(Written(After(s, run), k)) <==> Same(After(s, run).collectors[k].repeated, 0)
  {
    var t := After(s, run);
    BeginsInv(s);
    AlwaysInv(s, run);
    InvStep(t, Snap(k));
    InvStep(Next(t, Snap(k)), WriteTmp(k));
    InvStep(Next(Next(t, Snap(k)), WriteTmp(k)), Rename(k));
    WrittenIs(t, k);
    RightIff(Written(t, k));
  }

  /** A collector whose write or rename failed is free to write again, and then writes the present total. */
  lemma {:induction false} FailedWriteIsRetried(s: State, k: nat, renaming: bool)
    requires Idle(s, k)
    ensures
      var taken := Next(s, Snap(k));
      && Enabled(taken, if renaming then WriteTmp(k) else WriteFails(k))
      && var t := if renaming then Next(Next(taken, WriteTmp(k)), RenameFails(k)) else Next(taken, WriteFails(k));
         t.file == s.file && Idle(t, k) && Written(t, k).file == Some(Snapshot(s, s.collectors[k]))
  {
    var taken := Next(s, Snap(k));
    var t := if renaming then Next(Next(taken, WriteTmp(k)), RenameFails(k)) else Next(taken, WriteFails(k));
    WrittenIs(t, k);
  }

  predicate NoLaunch(run: seq<Step>) {
    forall i :: 0 <= i < |run| ==> !run[i].Launch?
  }

  lemma {:induction false} BaseStays(s: State, run: seq<Step>, k: nat)
    requires Runs(s, run) && NoLaunch(run) && k < |s.collectors|
    ensures k < |After(s, run).collectors| && After(s, run).collectors[k].repeated == s.collectors[k].repeated
    decreases |run|
  {
    if run != [] {
      BaseStays(Next(s, run[0]), run[1..], k);
    }
  }

  lemma {:induction false} RunsConcat(s: State, first: seq<Step>, second: seq<Step>)
    requires Runs(s, first) && Runs(After(s, first), second)
    ensures Runs(s, first + second) && After(s, first + second) == After(After(s, first), second)
    decreases |first|
  {
    if first == [] {
      assert first + second == second;
    } else {
      var whole, t := first + second, Next(s, first[0]);
      RunsConcat(t, first[1..], second);
      assert whole[0] == first[0] && whole[1..] == first[1..] + second;
      assert After(s, whole) == After(t, whole[1..]) && After(s, first) == After(t, first[1..]);
    }
  }

  /** A write of the collector that step `a` starts, after whatever else is counted and written in between. */
  lemma {:induction false} StartedRightIff(s: State, run: seq<Step>, a: Step, between: seq<Step>, k: nat)
    requires Begins(s) && Runs(s, run) && Enabled(After(s, run), a)
    requires Runs(Next(After(s, run), a), between) && NoLaunch(between) && k < |Next(After(s, run), a).collectors|
    requires Idle(After(Next(After(s, run), a), between), k)
    ensures
      var t := Next(After(s, run), a);
      Right(Written(After(t, between), k)) <==> Same(t.collectors[k].repeated, 0)
  {
    var was := After(s, run);
    var more := [a] + between;
    assert more[1..] == between;
    assert After(was, more) == After(Next(was, a), between);
    RunsConcat(s, run, more);
    BaseStays(Next(was, a), between, k);
    WriteRightIff(s, run + more, k);
  }

  /**
   After a reload on a right file that can be read, a write of the new collector leaves it right exactly when the
   file held nothing of this process at the reload, whatever is counted and whatever is written in between.
   */
  lemma {:induction false} ReloadHarmlessIff(s: State, run: seq<Step>, between: seq<Step>)
    requires Begins(s) && Runs(s, run) && OnFile(After(s, run).file).repeated == 0
    requires Runs(Next(After(s, run), Reload(true)), between) && NoLaunch(between)
    requires Idle(After(Next(After(s, run), Reload(true)), between), |After(s, run).collectors|)
    ensures
      var was := After(s, run);
      Right(Written(After(Next(was, Reload(true)), between), |was.collectors|)) <==>
      Same(OnFile(was.file).truth - was.origin, 0)
  {
    StartedRightIff(s, run, Reload(true), between, |After(s, run).collectors|);
  }

  /** A process that cannot read the file writes a right total exactly when nothing had been counted before it. */
  lemma {:induction false} UnreadableHarmlessIff(s: State, run: seq<Step>, between: seq<Step>)
    requires Begins(s) && Runs(s, run)
    requires Runs(Next(After(s, run), Launch(false)), between) && NoLaunch(between)
    requires Idle(After(Next(After(s, run), Launch(false)), between), 0)
    ensures
      var was := After(s, run);
      Right(Written(After(Next(was, Launch(false)), between), 0)) <==> Same(OnFile(was.file).truth, 0)
  {
    StartedRightIff(s, run, Launch(false), between, 0);
    var truth: int := OnFile(After(s, run).file).truth;
    SameNegated(truth, 0 - truth);
  }

  lemma SameNegated(n: int, m: int)
    requires m == 0 - n
    ensures Same(m, 0) <==> Same(n, 0)
  {
    if k :| Apart(m, 0, k) {
      assert Apart(n, 0, -k);
    }
    if k :| Apart(n, 0, k) {
      assert Apart(m, 0, -k);
    }
  }

  lemma {:induction false} Follow(s: State, run: seq<Step>, states: seq<State>)
    requires |states| == |run| + 1 && states[0] == s
    requires forall i :: 0 <= i < |run| ==> Enabled(states[i], run[i]) && states[i + 1] == Next(states[i], run[i])
    ensures Runs(s, run) && After(s, run) == states[|run|]
    decreases |run|
  {
    if run != [] {
      Follow(states[1], run[1..], states[1..]);
    }
  }

  lemma {:induction false} WriteRun(s: State, k: nat)
    requires Idle(s, k)
    ensures Runs(s, [Snap(k), WriteTmp(k), Rename(k)]) && After(s, [Snap(k), WriteTmp(k), Rename(k)]) == Written(s, k)
  {
    var t := Next(s, Snap(k));
    var u := Next(t, WriteTmp(k));
    Follow(s, [Snap(k), WriteTmp(k), Rename(k)], [s, t, u, Next(u, Rename(k))]);
  }

  lemma {:induction false} StepThen(s: State, a: Step, rest: seq<Step>)
    requires Enabled(s, a) && Runs(Next(s, a), rest)
    ensures Runs(s, [a] + rest) && After(s, [a] + rest) == After(Next(s, a), rest)
  {
    assert ([a] + rest)[1..] == rest;
  }

  /** A process with one idle collector counts `n` bytes and writes them. */
  lemma {:induction false} CountAndWrite(s: State, n: nat) returns (run: seq<Step>)
    requires |s.collectors| == 1 && Idle(s, 0)
    ensures Runs(s, run)
    ensures
      var t := After(s, run);
      && t.collectors == s.collectors && t.origin == s.origin
      && OnFile(t.file).truth == s.origin + s.counted + n && OnFile(t.file).repeated == s.collectors[0].repeated
  {
    var t := Next(s, Add(n));
    WriteRun(t, 0);
    WrittenIs(t, 0);
    run := [Snap(0), WriteTmp(0), Rename(0)];
    StepThen(s, Add(n), run);
    run := [Add(n)] + run;
  }

  /** The first process counts `n` bytes and writes them. */
  lemma {:induction false} FirstWrite(s: State, n: nat) returns (run: seq<Step>)
    requires Begins(s) && s.file == None
    ensures Runs(s, run)
    ensures
      var t := After(s, run);
      && |t.collectors| == 1 && Idle(t, 0) && t.origin == 0
      && OnFile(t.file).truth == n && OnFile(t.file).repeated == 0
  {
    run := CountAndWrite(Next(s, Launch(true)), n);
    StepThen(s, Launch(true), run);
    run := [Launch(true)] + run;
  }

  /** One process counts `n` bytes and writes them; after a reload they are on file twice. */
  lemma ReloadRun(n: nat) returns (run: seq<Step>)
    requires 0 < n < U64
    ensures Begins(Empty) && Runs(Empty, run) && OnFile(After(Empty, run).file).truth == n
    ensures
      var t := Next(After(Empty, run), Reload(true));
      Idle(t, 1) && !Right(Written(t, 1))
  {
    run := FirstWrite(Empty, n);
    ReloadHarmlessIff(Empty, run, []);
    if Same(n, 0) {
      SameSmall(n, 0);
    }
  }

  /** A second process that cannot read the file the first one wrote: its first write drops `n` bytes. */
  lemma UnreadableRun(n: nat) returns (run: seq<Step>)
    requires 0 < n < U64
    ensures Begins(Empty) && Runs(Empty, run) && OnFile(After(Empty, run).file).truth == n
    ensures
      var t := Next(After(Empty, run), Launch(false));
      Idle(t, 0) && !Right(Written(t, 0))
  {
    run := FirstWrite(Empty, n);
    UnreadableHarmlessIff(Empty, run, []);
    if Same(n, 0) {
      SameSmall(n, 0);
    }
  }

  // ------------------------------------------------------------------------
  // One collector per process
  // ------------------------------------------------------------------------

  /** No reloads, and every process can read the file. */
  predicate Plain(run: seq<Step>) {
    forall i :: 0 <= i < |run| ==> !run[i].Reload? && (run[i].Launch? ==> run[i].read)
  }

  /** One collector, whose base holds nothing twice, and readings that follow each other. */
  predicate Single(s: State) {
    && |s.collectors| <= 1
    && OnFile(s.file).repeated == 0 && OnFile(s.file).value < U64
    && (s.collectors != [] ==> InOrder(s, s.collectors[0]))
  }

  /** The file, the temporary file while it is to be renamed, the snapshot taken and the present, in that order. */
  predicate InOrder(s: State, c: Collector) {
    var f, now := OnFile(s.file), s.origin + s.counted;
    && c.repeated == 0
    && f.truth <= now
    && (c.taken.Some? ==> Later(f, c.taken.value, now))
    && (c.written ==> c.taken.None?)
    && (c.written && s.tmp.Some? ==> Later(f, s.tmp.value, now))
  }

  predicate Later(f: Reading, r: Reading, now: nat) {
    f.truth <= r.truth <= now && r.repeated == 0 && r.value < U64
  }

  lemma SingleStep(s: State, a: Step)
    requires Single(s) && Enabled(s, a) && !a.Reload? && (a.Launch? ==> a.read)
    ensures Single(Next(s, a))
  {}

  lemma {:induction false} StaysSingle(s: State, run: seq<Step>)
    requires Plain(run) && Single(s) && Runs(s, run)
    ensures Single(After(s, run))
    decreases |run|
  {
    if run != [] {
      SingleStep(s, run[0]);
      StaysSingle(Next(s, run[0]), run[1..]);
    }
  }

  /** Across any processes, each with one collector, the file holds the bytes counted up to their last writes. */
  lemma {:induction false} TotalIsTruth(s: State, run: seq<Step>)
    requires Begins(s) && Plain(run) && Runs(s, run)
    ensures Right(After(s, run))
  {
    TruthIffNothingShownTwice(s, run);
    StaysSingle(s, run);
    SameRefl(0);
  }

  /** What is on file never goes down while the bytes counted stay below 2^64. */
  lemma {:induction false} TotalNeverFalls(s: State, run: seq<Step>, a: Step)
    requires Begins(s) && Plain(run) && Runs(s, run)
    requires Enabled(After(s, run), a)
    requires After(s, run).origin + After(s, run).counted < U64
    ensures OnFile(After(s, run).file).value <= OnFile(Next(After(s, run), a).file).value
  {
    var t := After(s, run);
    BeginsInv(s);
    AlwaysInv(s, run);
    StaysSingle(s, run);
    if a.Rename? && t.tmp.Some? {
      SameSmall(OnFile(t.file).value, OnFile(t.file).truth);
      SameSmall(t.tmp.value.value, t.tmp.value.truth);
    }
  }

  // ------------------------------------------------------------------------
  // What ends up on file, from the events alone
  // ------------------------------------------------------------------------

  /** The life of a tunnel with one collector at a time: processes start, count bytes and save. */
  datatype Event = Begin | Bytes(n: nat) | Save

  /** `saved` in all; what was saved when the process started; what it has counted since. */
  datatype Books = Books(saved: nat, before: nat, counted: nat)

  /** A save keeps all the process has counted; what is counted after its last save is lost when the next starts. */
  function Book(b: Books, e: Event): Books {
    match e
    case Begin => Books(b.saved, b.saved, 0)
    case Bytes(n) => b.(counted := b.counted + n)
    case Save => b.(saved := b.before + b.counted)
  }

  function Kept(events: seq<Event>): Books {
    if events == [] then Books(0, 0, 0) else Book(Kept(events[..|events| - 1]), events[|events| - 1])
  }

  function Happen(t: State, e: Event): State {
    match e
    case Begin => Next(t, Launch(true))
    case Bytes(n) => Next(t, Add(n))
    case Save => if Idle(t, 0) then Written(t, 0) else t
  }

  function Play(s: State, events: seq<Event>): State {
    if events == [] then s else Happen(Play(s, events[..|events| - 1]), events[|events| - 1])
  }

  lemma WrapSum(a: int, b: int)
    ensures Wrap(Wrap(a) + Wrap(b)) == Wrap(a + b) && Wrap(Wrap(a) + b) == Wrap(a + b)
  {
    SameWrapped(a);
    SameWrapped(b);
    SameRefl(b);
    SameAdd(Wrap(a), a, Wrap(b), b);
    SameAdd(Wrap(a), a, b, b);
    SameIffEqual(Wrap(a) + Wrap(b), a + b);
    SameIffEqual(Wrap(a) + b, a + b);
  }

  /** A process whose file started with `f` is where the books say. */
  predicate Agrees(t: State, b: Books, f: nat) {
    && |t.collectors| == 1 && Idle(t, 0)
    && t.live == Wrap(b.counted) && t.collectors[0].base == Wrap(f + b.before)
    && OnFile(t.file).value == Wrap(f + b.saved)
  }

  lemma BeginAgrees(t: State, b: Books, f: nat)
    requires OnFile(t.file).value == Wrap(f + b.saved)
    ensures Agrees(Next(t, Launch(true)), Books(b.saved, b.saved, 0), f)
  {}

  lemma BytesAgree(t: State, b: Books, f: nat, m: nat)
    requires Agrees(t, b, f)
    ensures Agrees(Next(t, Add(m)), b.(counted := b.counted + m), f)
  {
    WrapSum(b.counted, m);
  }

  lemma SaveAgrees(t: State, b: Books, f: nat)
    requires Agrees(t, b, f)
    ensures Agrees(Written(t, 0), b.(saved := b.before + b.counted), f)
  {
    WrittenIs(t, 0);
    WrapSum(f + b.before, b.counted);
    assert f + b.before + b.counted == f + (b.before + b.counted);
  }

  lemma HappenAgrees(t: State, b: Books, f: nat, e: Event)
    requires Agrees(t, b, f)
    ensures Agrees(Happen(t, e), Book(b, e), f)
  {
    match e {
      case Begin => BeginAgrees(t, b, f);
      case Bytes(m) => BytesAgree(t, b, f, m);
      case Save => SaveAgrees(t, b, f);
    }
  }

  lemma {:induction false} PlayTracks(s: State, events: seq<Event>)
    requires Begins(s) && events != [] && events[0] == Begin
    ensures Agrees(Play(s, events), Kept(events), OnFile(s.file).value)
    decreases |events|
  {
    var n, f := |events| - 1, OnFile(s.file).value;
    var before := events[..n];
    if n == 0 {
      BeginAgrees(s, Books(0, 0, 0), f);
      assert Play(s, before) == s && Kept(before) == Books(0, 0, 0);
    } else {
      PlayTracks(s, before);
      HappenAgrees(Play(s, before), Kept(before), f, events[n]);
    }
  }

  /** After any life the file holds what it started with and everything kept, modulo 2^64. */
  lemma {:induction false} FileHoldsWhatWasKept(s: State, events: seq<Event>)
    requires Begins(s) && events != [] && events[0] == Begin
    ensures OnFile(Play(s, events).file).value == Wrap(OnFile(s.file).value + Kept(events).saved)
  {
    PlayTracks(s, events);
  }

  /** Every such life is a run. */
  lemma {:induction false} PlayRuns(s: State, events: seq<Event>) returns (run: seq<Step>)
    ensures Runs(s, run) && After(s, run) == Play(s, events)
    decreases |events|
  {
    if events == [] {
      run := [];
    } else {
      var n := |events| - 1;
      var first := PlayRuns(s, events[..n]);
      var t, more := Play(s, events[..n]), [];
      match events[n] {
        case Begin =>
          more := [Launch(true)];
          assert After(t, more) == After(Next(t, Launch(true)), []);
        case Bytes(m) =>
          more := [Add(m)];
          assert After(t, more) == After(Next(t, Add(m)), []);
        case Save =>
          if Idle(t, 0) {
            more := [Snap(0), WriteTmp(0), Rename(0)];
            WriteRun(t, 0);
          }
      }
      RunsConcat(s, first, more);
      run := first + more;
    }
  }

  // ------------------------------------------------------------------------
  // The code
  // ------------------------------------------------------------------------

  function Value(file: Option<Reading>): Option<nat> {
    if file.Some? then Some(file.value.value) else None
  }

  /** A process's counter and the bases of its collectors. */
  class Process {
    var live: nat
    var bases: seq<nat>
    ghost var state: State

    ghost predicate Valid()
      reads this
    {
      && live == state.live
      && |bases| == |state.collectors|
      && forall k :: 0 <= k < |bases| ==> bases[k] == state.collectors[k].base
    }

    /** The file may be missing, and one that is there may not be readable. */
    constructor (file: Option<nat>, read: bool, ghost before: State)
      requires Value(before.file) == file
      ensures Valid() && state == Next(before, Launch(read))
    {
      live := 0;
      bases := [if file.Some? && read then file.value else 0];
      state := Next(before, Launch(read));
    }

    method AddBytes(n: nat)
      requires Valid()
      modifies this`live, this`state
      ensures Valid() && state == Next(old(state), Add(n))
    {
      live := Wrap(live + n);
      state := Next(state, Add(n));
    }

    /** A new collector over counters that keep running. */
    method Reload(file: Option<nat>, read: bool)
      requires Valid() && file == Value(state.file)
      modifies this`bases, this`state
      ensures Valid() && state == Next(old(state), Step.Reload(read))
    {
      bases := bases + [if file.Some? && read then file.value else 0];
      state := Next(state, Step.Reload(read));
    }

    /** One write with nothing in between; writing the temporary file or renaming it may fail. */
    method Write(k: nat, file: Option<nat>, wrote: bool, renamed: bool) returns (written: Option<nat>)
      requires Valid() && Idle(state, k) && file == Value(state.file)
      modifies this`state
      ensures Valid() && written == Value(state.file)
      ensures
        var taken := Next(old(state), Snap(k));
        state == if !wrote then Next(taken, WriteFails(k))
                 else if !renamed then Next(Next(taken, WriteTmp(k)), RenameFails(k))
                 else Written(old(state), k)
    {
      var total := Wrap(bases[k] + live);
      written := if wrote && renamed then Some(total) else file;
      WrittenIs(state, k);
      ghost var taken := Next(state, Snap(k));
      state := if !wrote then Next(taken, WriteFails(k))
               else if !renamed then Next(Next(taken, WriteTmp(k)), RenameFails(k))
               else Written(state, k);
    }
  }
}
