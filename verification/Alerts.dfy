/** The alert watcher: thresholds with hysteresis and cooldown, and tunnel up/down transitions. */
module Alerts {
  import opened Basics

  const MARGIN: int := 5  // clearMargin

  datatype Resource = Cpu | Mem | Disk

  /** What is remembered about one resource; times are in nanoseconds. */
  datatype AlertState = AlertState(firing: bool, lastSent: int)

  const Quiet := AlertState(false, 0)

  datatype Kind = Fired | Still | Recovered

  /** A message, with the cooldown in force when it was sent. */
  datatype Notice = Notice(kind: Kind, at: int, cooldown: int)

  /** One reading, with the threshold and the cooldown in force: the configuration is loaded anew for each pass. */
  datatype Reading = Reading(value: real, at: int, threshold: int, cooldown: int)

  predicate On(r: Reading) {
    r.threshold > 0
  }

  predicate High(r: Reading) {
    r.value >= r.threshold as real
  }

  predicate Cleared(r: Reading) {
    r.value < (r.threshold - MARGIN) as real
  }

  /** One reading: the new state and the message sent, if any.  A check that is off leaves everything as it is. */
  function Check(st: AlertState, r: Reading): (AlertState, Option<Notice>) {
    if !On(r) then (st, None)
    else if High(r) then
      if !st.firing then (AlertState(true, r.at), Some(Notice(Fired, r.at, r.cooldown)))
      else if r.at - st.lastSent >= r.cooldown then
        (st.(lastSent := r.at), Some(Notice(Still, r.at, r.cooldown)))
      else (st, None)
    else if st.firing && Cleared(r) then
      (st.(firing := false), Some(Notice(Recovered, r.at, r.cooldown)))
    else (st, None)
  }

  // ------------------------------------------------------------------------
  // Whole histories of one resource
  // ------------------------------------------------------------------------

  function After(h: seq<Reading>): AlertState {
    if h == [] then Quiet else Check(After(h[..|h| - 1]), h[|h| - 1]).0
  }

  function Log(h: seq<Reading>): seq<Notice> {
    if h == [] then [] else
    var sent := Check(After(h[..|h| - 1]), h[|h| - 1]).1;
    Log(h[..|h| - 1]) + if sent.Some? then [sent.value] else []
  }

  /** Reading `i` reached its threshold and none since has fallen more than five points below its own. */
  predicate HeldSince(h: seq<Reading>, i: int) {
    && 0 <= i < |h| && h[i].threshold > 0 && h[i].value >= h[i].threshold as real
    && forall j :: i < j < |h| && h[j].threshold > 0 ==> h[j].value >= (h[j].threshold - 5) as real
  }

  /** Some reading reached its threshold, and every later one held the margin. */
  ghost predicate Held(h: seq<Reading>) {
    exists i :: HeldSince(h, i)
  }

  /** The alert is firing exactly when it is held. */
  lemma {:induction false} FiringIffHeld(h: seq<Reading>)
    ensures After(h).firing <==> Held(h)
  {
    if h != [] {
      var n := |h| - 1;
      var before := h[..n];
      FiringIffHeld(before);
      if On(h[n]) && High(h[n]) {
        assert HeldSince(h, n);
      } else if !On(h[n]) || !Cleared(h[n]) {
        if i :| HeldSince(before, i) {
          assert HeldSince(h, i);
        }
      }
      if i :| HeldSince(h, i) {
        assert i < n ==> HeldSince(before, i);
      }
    }
  }

  /** The message that the next reading calls for, from the history and the messages so far. */
  ghost function Due(h: seq<Reading>, log: seq<Notice>, x: Reading): seq<Notice> {
    if x.threshold <= 0 then []
    else if x.value >= x.threshold as real then
      if !Held(h) then [Notice(Fired, x.at, x.cooldown)]
      else if log != [] && x.at >= log[|log| - 1].at + x.cooldown then [Notice(Still, x.at, x.cooldown)]
      else []
    else if x.value < (x.threshold - 5) as real && Held(h) then [Notice(Recovered, x.at, x.cooldown)]
    else []
  }

  /**
   Each reading adds exactly the message it calls for: a fire when it is high and the alert was not held, a
   reminder when it is high, the alert was held and the cooldown has passed since the last message, a recovery
   when it is clear and the alert was held, and nothing otherwise.
   */
  lemma {:induction false} SaysWhatIsDue(h: seq<Reading>, x: Reading)
    ensures Log(h + [x]) == Log(h) + Due(h, Log(h), x)
  {
    assert (h + [x])[..|h|] == h;
    FiringIffHeld(h);
    LogOrderly(h);
  }

  /** The notice `b` may come right after `a`. */
  predicate Follows(a: Notice, b: Notice) {
    match b.kind
    case Fired => a.kind == Recovered
    case Still => a.kind != Recovered && b.at - a.at >= b.cooldown
    case Recovered => a.kind != Recovered
  }

  /** Episodes of one Fired, spaced reminders, and one Recovered. */
  predicate Orderly(log: seq<Notice>) {
    && (log != [] ==> log[0].kind == Fired)
    && forall i :: 0 <= i < |log| - 1 ==> Follows(log[i], log[i + 1])
  }

  /** The log is orderly, and it agrees with the state about whether the alert is live and when it was last sent. */
  lemma {:induction false} LogOrderly(h: seq<Reading>)
    ensures Orderly(Log(h))
    ensures
      var st, log := After(h), Log(h);
      && (st.firing <==> log != [] && log[|log| - 1].kind != Recovered)
      && (st.firing ==> st.lastSent == log[|log| - 1].at)
  {
    if h != [] {
      LogOrderly(h[..|h| - 1]);
    }
  }

  /** Notices `i` to `j` belong to one episode, the fire and its reminders, under cooldowns of at least `c`. */
  predicate Episode(log: seq<Notice>, c: int, i: nat, j: nat) {
    && i <= j < |log| && log[i].kind == Fired
    && forall k :: i < k <= j ==> log[k].kind == Still && log[k].cooldown >= c
  }

  lemma {:induction false} EpisodeSpan(log: seq<Notice>, c: int, i: nat, j: nat)
    requires Orderly(log) && Episode(log, c, i, j)
    ensures (j - i) * c <= log[j].at - log[i].at
    decreases j
  {
    if i < j {
      EpisodeSpan(log, c, i, j - 1);
      assert Follows(log[j - 1], log[j - 1 + 1]);
      assert (j - i) * c == (j - 1 - i) * c + c;
    }
  }

  /** An episode under cooldowns of at least `c` whose messages span `d` sends at most 1 + d/c of them. */
  lemma {:induction false} EpisodeBound(h: seq<Reading>, c: int, i: nat, j: nat)
    requires c > 0 && Episode(Log(h), c, i, j)
    ensures
      var log := Log(h);
      j - i + 1 <= 1 + (log[j].at - log[i].at) / c
  {
    var log := Log(h);
    LogOrderly(h);
    EpisodeSpan(log, c, i, j);
    DivideSpan(j - i, c, log[j].at - log[i].at);
  }

  lemma DivideSpan(n: nat, c: int, d: int)
    requires c > 0 && n * c <= d
    ensures n <= d / c
  {
    var q := d / c;
    assert n * c < (q + 1) * c;
    Cancel(n, q + 1, c);
  }

  // ------------------------------------------------------------------------
  // Tunnel transitions
  // ------------------------------------------------------------------------

  type Name = string

  datatype Change = IsDown(name: Name) | WentDown(name: Name) | BackUp(name: Name) | Removed(name: Name)

  /** What a pass says about one tunnel. */
  function Said(was: map<Name, bool>, now: map<Name, bool>, name: Name): Option<Change> {
    if name in now then
      if name !in was then (if now[name] then None else Some(IsDown(name)))
      else if was[name] && !now[name] then Some(WentDown(name))
      else if !was[name] && now[name] then Some(BackUp(name))
      else None
    else if name in was then Some(Removed(name))
    else None
  }

  predicate DistinctNames(msgs: seq<Change>) {
    forall i, j :: 0 <= i < j < |msgs| ==> msgs[i].name != msgs[j].name
  }

  /** `msgs` holds what is to be said about each tunnel, once, in some order. */
  ghost predicate Announces(was: map<Name, bool>, now: map<Name, bool>, msgs: seq<Change>) {
    && DistinctNames(msgs)
    && (forall m :: m in msgs ==> Said(was, now, m.name) == Some(m))
    && (forall name :: Said(was, now, name).Some? ==> Said(was, now, name).value in msgs)
  }

  /** What a reader of one message makes of the up/down map. */
  function Apply(known: map<Name, bool>, m: Change): map<Name, bool> {
    match m
    case IsDown(name) => known[name := false]
    case WentDown(name) => known[name := false]
    case BackUp(name) => known[name := true]
    case Removed(name) => known - {name}
  }

  function Replay(known: map<Name, bool>, msgs: seq<Change>): map<Name, bool>
    decreases |msgs|
  {
    if msgs == [] then known else Replay(Apply(known, msgs[0]), msgs[1..])
  }

  function At(m: map<Name, bool>, name: Name): Option<bool> {
    if name in m then Some(m[name]) else None
  }

  /** Replaying distinct names changes each name by its own message and no other. */
  lemma {:induction false} ReplayAt(known: map<Name, bool>, msgs: seq<Change>, name: Name)
    requires DistinctNames(msgs)
    ensures (forall m :: m in msgs ==> m.name != name) ==> At(Replay(known, msgs), name) == At(known, name)
    ensures forall m :: m in msgs && m.name == name ==> At(Replay(known, msgs), name) == At(Apply(known, m), name)
    decreases |msgs|
  {
    if msgs != [] {
      ReplayAt(Apply(known, msgs[0]), msgs[1..], name);
      if msgs[0].name == name {
        assert forall m :: m in msgs[1..] ==> m.name != name;
        assert At(Replay(known, msgs), name) == At(Apply(known, msgs[0]), name);
      }
      forall m | m in msgs && m.name == name
        ensures At(Replay(known, msgs), name) == At(Apply(known, m), name)
      {
        if m != msgs[0] {
          assert m in msgs[1..];
        }
      }
    }
  }

  /** New tunnels that are already up are the only ones a pass does not mention. */
  function Unmentioned(was: map<Name, bool>, now: map<Name, bool>): set<Name> {
    set name | name in now && name !in was && now[name]
  }

  /** Replaying a pass's messages on the old map gives the new one, less the unmentioned newcomers. */
  lemma {:induction false} FaithfulDiff(was: map<Name, bool>, now: map<Name, bool>, msgs: seq<Change>)
    requires Announces(was, now, msgs)
    ensures Replay(was, msgs) == now - Unmentioned(was, now)
    ensures forall m :: m in msgs ==> (m.IsDown? <==> m.name !in was) && (m.Removed? <==> m.name !in now)
    ensures forall m :: m in msgs && m.name in was && m.name in now ==> was[m.name] != now[m.name]
  {
    var told, want := Replay(was, msgs), now - Unmentioned(was, now);
    forall name
      ensures At(told, name) == At(want, name)
    {
      ReplayAt(was, msgs, name);
      if Said(was, now, name).None? {
        assert forall m :: m in msgs ==> m.name != name;
      } else {
        var m := Said(was, now, name).value;
        assert m in msgs && m.name == name;
      }
    }
    assert forall name :: name in told <==> At(told, name).Some?;
    assert forall name :: name in want <==> At(want, name).Some?;
    assert told.Keys == want.Keys;
    assert forall name :: name in told ==> At(told, name) == Some(told[name]);
  }

  /** Everything said about one tunnel over a sequence of passes; the first pass only records. */
  function Story(passes: seq<map<Name, bool>>, name: Name): seq<Change> {
    if |passes| <= 1 then [] else
    var n := |passes| - 1;
    var said := Said(passes[n - 1], passes[n], name);
    Story(passes[..n], name) + if said.Some? then [said.value] else []
  }

  predicate Down(m: Change) {
    m.IsDown? || m.WentDown?
  }

  /** Down and up alternate; after a removal the tunnel can only be reported down or removed again. */
  predicate MayFollow(a: Change, b: Change) {
    b.Removed? || (Down(a) && b.BackUp?) || (a.BackUp? && b.WentDown?) || (a.Removed? && Down(b))
  }

  predicate Alternates(story: seq<Change>) {
    forall i :: 0 <= i < |story| - 1 ==> MayFollow(story[i], story[i + 1])
  }

  /** What the last thing said about a tunnel tells of its present state. */
  predicate Consistent(m: Change, known: Option<bool>) {
    match m
    case IsDown(_) => known == Some(false)
    case WentDown(_) => known == Some(false)
    case BackUp(_) => known == Some(true)
    case Removed(_) => known != Some(false)
  }

  lemma StoryStep(last: Change, was: map<Name, bool>, now: map<Name, bool>, name: Name)
    requires Consistent(last, At(was, name))
    ensures
      var said := Said(was, now, name);
      if said.Some? then MayFollow(last, said.value) && Consistent(said.value, At(now, name))
      else Consistent(last, At(now, name))
  {}

  lemma {:induction false} StoryAlternates(passes: seq<map<Name, bool>>, name: Name)
    ensures Alternates(Story(passes, name))
    ensures
      var story := Story(passes, name);
      story != [] ==> Consistent(story[|story| - 1], At(passes[|passes| - 1], name))
  {
    if |passes| > 1 {
      var n := |passes| - 1;
      StoryAlternates(passes[..n], name);
      var before := Story(passes[..n], name);
      assert passes[..n][n - 1] == passes[n - 1];
      if before != [] {
        StoryStep(before[|before| - 1], passes[n - 1], passes[n], name);
      }
    }
  }

  // ------------------------------------------------------------------------
  // The order of a pass's messages
  // ------------------------------------------------------------------------

  /** The order of sort.Strings. */
  predicate Before(a: Name, b: Name)
    decreases |a|
  {
    a == [] || (b != [] && (a[0] < b[0] || (a[0] == b[0] && Before(a[1..], b[1..]))))
  }

  lemma {:induction false} BeforeTotal(a: Name, b: Name)
    ensures Before(a, b) || Before(b, a)
    decreases |a|
  {
    if a != [] && b != [] && a[0] == b[0] {
      BeforeTotal(a[1..], b[1..]);
    }
  }

  lemma {:induction false} BeforeTrans(a: Name, b: Name, c: Name)
    requires Before(a, b) && Before(b, c)
    ensures Before(a, c)
    decreases |a|
  {
    if a != [] && a[0] == b[0] == c[0] {
      BeforeTrans(a[1..], b[1..], c[1..]);
    }
  }

  /** `a` and `b` agree up to `k`, where `a` ends or has the smaller character. */
  predicate FirstDifference(a: Name, b: Name, k: int) {
    && 0 <= k <= |a| && k <= |b| && a[..k] == b[..k]
    && (k == |a| || (k < |b| && a[k] < b[k]))
  }

  lemma {:induction false} BeforeIff(a: Name, b: Name)
    ensures Before(a, b) <==> exists k :: FirstDifference(a, b, k)
    decreases |a|
  {
    if a == [] || (b != [] && a[0] < b[0]) {
      assert FirstDifference(a, b, 0);
    }
    if a != [] && b != [] {
      BeforeIff(a[1..], b[1..]);
      if k :| FirstDifference(a[1..], b[1..], k) {
        assert a[0] == b[0] ==> a[..k + 1] == [a[0]] + a[1..][..k] && b[..k + 1] == [b[0]] + b[1..][..k];
        assert a[0] == b[0] ==> FirstDifference(a, b, k + 1);
      }
      if k :| FirstDifference(a, b, k) {
        if k > 0 {
          assert a[0] == a[..k][0] == b[..k][0] == b[0];
          assert a[1..][..k - 1] == a[..k][1..] && b[1..][..k - 1] == b[..k][1..];
          assert FirstDifference(a[1..], b[1..], k - 1);
        }
      }
    }
  }

  predicate IsLeast(m: Name, names: set<Name>) {
    m in names && forall n :: n in names ==> Before(m, n)
  }

  lemma {:induction false} SomeLeast(names: set<Name>)
    requires names != {}
    ensures exists m :: IsLeast(m, names)
    decreases |names|
  {
    var x :| x in names;
    var rest := names - {x};
    BeforeTotal(x, x);
    if rest == {} {
      assert forall n :: n in names ==> n == x || n in rest;
      assert IsLeast(x, names);
    } else {
      SomeLeast(rest);
      var m :| IsLeast(m, rest);
      BeforeTotal(m, x);
      if Before(m, x) {
        assert IsLeast(m, names);
      } else {
        forall n | n in rest
          ensures Before(x, n)
        {
          BeforeTrans(x, m, n);
        }
        assert IsLeast(x, names);
      }
    }
  }

  /** Messages about present tunnels come first, sorted by name; removals follow. */
  predicate Ordered(msgs: seq<Change>, present: nat) {
    && present <= |msgs|
    && (forall i, j :: 0 <= i < j < present ==> Before(msgs[i].name, msgs[j].name))
    && (forall i :: 0 <= i < |msgs| ==> (msgs[i].Removed? <==> present <= i))
  }

  /** Everything has been said, in order, about the tunnels that exist and are not in `left`, which come after. */
  ghost predicate SaidBut(was: map<Name, bool>, now: map<Name, bool>, left: set<Name>, msgs: seq<Change>) {
    && left <= now.Keys
    && DistinctNames(msgs) && Ordered(msgs, |msgs|)
    && (forall m :: m in msgs ==> m.name in now && m.name !in left && Said(was, now, m.name) == Some(m))
    && (forall m, n :: m in msgs && n in left ==> Before(m.name, n))
    && (forall name :: name in now && name !in left && Said(was, now, name).Some? ==>
          Said(was, now, name).value in msgs)
  }

  lemma OneMoreInOrder(msgs: seq<Change>, m: Change)
    requires DistinctNames(msgs) && Ordered(msgs, |msgs|) && !m.Removed?
    requires forall x :: x in msgs ==> x.name != m.name && Before(x.name, m.name)
    ensures DistinctNames(msgs + [m]) && Ordered(msgs + [m], |msgs + [m]|)
  {}

  lemma SaidMore(
    was: map<Name, bool>, now: map<Name, bool>, left: set<Name>, msgs: seq<Change>, name: Name, m: Change)
    requires SaidBut(was, now, left, msgs) && IsLeast(name, left)
    requires Said(was, now, name) == Some(m) && m.name == name && !m.Removed?
    ensures SaidBut(was, now, left - {name}, msgs + [m])
  {
    var more := msgs + [m];
    OneMoreInOrder(msgs, m);
    assert forall x :: x in more <==> x in msgs || x == m;
  }

  lemma SaidNext(was: map<Name, bool>, now: map<Name, bool>, left: set<Name>, msgs: seq<Change>, name: Name)
    requires SaidBut(was, now, left, msgs) && IsLeast(name, left)
    ensures
      var said := Said(was, now, name);
      SaidBut(was, now, left - {name}, if said.Some? then msgs + [said.value] else msgs)
  {
    var said := Said(was, now, name);
    if said.Some? {
      SaidMore(was, now, left, msgs, name, said.value);
    }
  }

  // ------------------------------------------------------------------------
  // The watcher
  // ------------------------------------------------------------------------

  datatype Config = Config(cpu: int, mem: int, disk: int, tunnelDown: bool, newRelease: bool, cooldown: int)

  function Threshold(c: Config, r: Resource): int {
    match r
    case Cpu => c.cpu
    case Mem => c.mem
    case Disk => c.disk
  }

  function Known(states: map<Resource, AlertState>, r: Resource): AlertState {
    if r in states then states[r] else Quiet
  }

  function Sent(states: map<Resource, AlertState>, r: Resource, x: Reading): seq<(Resource, Notice)> {
    var sent := Check(Known(states, r), x).1;
    if sent.Some? then [(r, sent.value)] else []
  }

  datatype Sample = Sample(cpu: real, mem: real, disk: real, at: int)

  function Of(c: Config, x: Sample, r: Resource): Reading {
    var value := match r case Cpu => x.cpu case Mem => x.mem case Disk => x.disk;
    Reading(value, x.at, Threshold(c, r), c.cooldown)
  }

  /** The three readings of a pass: each resource's own value against its own threshold. */
  lemma ReadingsOf(c: Config, x: Sample)
    ensures Of(c, x, Cpu) == Reading(x.cpu, x.at, c.cpu, c.cooldown)
    ensures Of(c, x, Mem) == Reading(x.mem, x.at, c.mem, c.cooldown)
    ensures Of(c, x, Disk) == Reading(x.disk, x.at, c.disk, c.cooldown)
  {}

  /** What the passes so far have read of one resource. */
  function History(passes: seq<(Config, Sample)>, r: Resource): (h: seq<Reading>)
    ensures |h| == |passes|
  {
    seq(|passes|, i requires 0 <= i < |passes| => Of(passes[i].0, passes[i].1, r))
  }

  lemma HistoryGrows(passes: seq<(Config, Sample)>, c: Config, x: Sample, r: Resource)
    ensures After(History(passes + [(c, x)], r)) == Check(After(History(passes, r)), Of(c, x, r)).0
  {
    var h := History(passes + [(c, x)], r);
    assert h[..|passes|] == History(passes, r);
  }

  /** The processor was over its limit in pass `i` and has not been five points below it since. */
  predicate CpuSince(passes: seq<(Config, Sample)>, i: int) {
    && 0 <= i < |passes| && passes[i].0.cpu > 0 && passes[i].1.cpu >= passes[i].0.cpu as real
    && forall j :: i < j < |passes| && passes[j].0.cpu > 0 ==> passes[j].1.cpu >= (passes[j].0.cpu - 5) as real
  }

  predicate MemSince(passes: seq<(Config, Sample)>, i: int) {
    && 0 <= i < |passes| && passes[i].0.mem > 0 && passes[i].1.mem >= passes[i].0.mem as real
    && forall j :: i < j < |passes| && passes[j].0.mem > 0 ==> passes[j].1.mem >= (passes[j].0.mem - 5) as real
  }

  predicate DiskSince(passes: seq<(Config, Sample)>, i: int) {
    && 0 <= i < |passes| && passes[i].0.disk > 0 && passes[i].1.disk >= passes[i].0.disk as real
    && forall j :: i < j < |passes| && passes[j].0.disk > 0 ==> passes[j].1.disk >= (passes[j].0.disk - 5) as real
  }

  /** After any passes each resource is firing exactly by its own values and its own thresholds. */
  lemma {:induction false} EachByItsOwn(w: Watcher)
    requires w.Valid()
    ensures Known(w.states, Cpu).firing <==> exists i :: CpuSince(w.passes, i)
    ensures Known(w.states, Mem).firing <==> exists i :: MemSince(w.passes, i)
    ensures Known(w.states, Disk).firing <==> exists i :: DiskSince(w.passes, i)
  {
    FiringIffHeld(History(w.passes, Cpu));
    FiringIffHeld(History(w.passes, Mem));
    FiringIffHeld(History(w.passes, Disk));
    forall i
      ensures HeldSince(History(w.passes, Cpu), i) <==> CpuSince(w.passes, i)
      ensures HeldSince(History(w.passes, Mem), i) <==> MemSince(w.passes, i)
      ensures HeldSince(History(w.passes, Disk), i) <==> DiskSince(w.passes, i)
    {
      SinceIff(w.passes, i);
    }
  }

  lemma SinceIff(passes: seq<(Config, Sample)>, i: int)
    ensures HeldSince(History(passes, Cpu), i) <==> CpuSince(passes, i)
    ensures HeldSince(History(passes, Mem), i) <==> MemSince(passes, i)
    ensures HeldSince(History(passes, Disk), i) <==> DiskSince(passes, i)
  {
    var cpu, mem, disk := History(passes, Cpu), History(passes, Mem), History(passes, Disk);
    forall j | 0 <= j < |passes|
      ensures var (c, x) := passes[j]; cpu[j] == Reading(x.cpu, x.at, c.cpu, c.cooldown)
      ensures var (c, x) := passes[j]; mem[j] == Reading(x.mem, x.at, c.mem, c.cooldown)
      ensures var (c, x) := passes[j]; disk[j] == Reading(x.disk, x.at, c.disk, c.cooldown)
    {
      ReadingsOf(passes[j].0, passes[j].1);
    }
  }

  class Watcher {
    var states: map<Resource, AlertState>
    var tunnelUp: map<Name, bool>
    var seeded: bool
    var notified: string                       // the last release announced; kept on disk
    ghost var passes: seq<(Config, Sample)>
    ghost var announced: seq<string>

    /** The states are those of the whole history, and no release is announced twice in a row. */
    ghost predicate Valid()
      reads this
    {
      && (forall r :: Known(states, r) == After(History(passes, r)))
      && (announced != [] ==> notified == announced[|announced| - 1])
      && (forall i :: 0 <= i < |announced| - 1 ==> announced[i] != announced[i + 1])
    }

    constructor (notified: string)
      ensures Valid() && states == map[] && tunnelUp == map[] && !seeded && this.notified == notified
      ensures passes == [] && announced == []
    {
      states, tunnelUp, seeded, this.notified := map[], map[], false, notified;
      passes, announced := [], [];
    }

    method CheckResource(r: Resource, x: Reading) returns (msgs: seq<(Resource, Notice)>)
      modifies this`states
      ensures msgs == Sent(old(states), r, x)
      ensures Known(states, r) == Check(Known(old(states), r), x).0
      ensures forall q :: q != r ==> Known(states, q) == Known(old(states), q)
    {
      msgs := [];
      if x.threshold <= 0 {
        return;
      }
      if r !in states {
        states := states[r := Quiet];
      }
      var st, t := states[r], x.threshold;
      if x.value >= t as real {
        if !st.firing {
          states := states[r := AlertState(true, x.at)];
          msgs := msgs + [(r, Notice(Fired, x.at, x.cooldown))];
        } else if x.at - st.lastSent >= x.cooldown {
          states := states[r := st.(lastSent := x.at)];
          msgs := msgs + [(r, Notice(Still, x.at, x.cooldown))];
        }
      } else if st.firing && x.value < (t - MARGIN) as real {
        states := states[r := st.(firing := false)];
        msgs := msgs + [(r, Notice(Recovered, x.at, x.cooldown))];
      }
    }

    /** What is said about one tunnel that exists. */
    method SayOne(name: Name, now: map<Name, bool>) returns (said: Option<Change>)
      requires name in now
      ensures said == Said(tunnelUp, now, name)
    {
      said := None;
      var up := now[name];
      if name !in tunnelUp {
        if !up {
          said := Some(IsDown(name));
        }
      } else if tunnelUp[name] && !up {
        said := Some(WentDown(name));
      } else if !tunnelUp[name] && up {
        said := Some(BackUp(name));
      }
    }

    /** What is said about the tunnels that exist, in the order of their names. */
    method PresentTunnels(now: map<Name, bool>) returns (msgs: seq<Change>)
      ensures SaidBut(tunnelUp, now, {}, msgs)
    {
      msgs := [];
      var left := now.Keys;
      while left != {}
        invariant SaidBut(tunnelUp, now, left, msgs)
        decreases left
      {
        SomeLeast(left);
        var name :| IsLeast(name, left);
        var said := SayOne(name, now);
        SaidNext(tunnelUp, now, left, msgs, name);
        if said.Some? {
          msgs := msgs + [said.value];
        }
        left := left - {name};
      }
    }

    /** Transitions only; the first pass seeds the map and says nothing. */
    method CheckTunnels(now: map<Name, bool>) returns (msgs: seq<Change>, ghost present: nat)
      modifies this`tunnelUp, this`seeded
      ensures seeded && tunnelUp == now && Ordered(msgs, present)
      ensures !old(seeded) ==> msgs == []
      ensures old(seeded) ==> Announces(old(tunnelUp), now, msgs)
    {
      msgs, present := [], 0;
      if !seeded {
        tunnelUp, seeded := now, true;
        return;
      }
      msgs := PresentTunnels(now);
      present := |msgs|;
      var was := tunnelUp;
      var left := was.Keys;
      while left != {}
        invariant left <= was.Keys && tunnelUp == was && seeded
        invariant DistinctNames(msgs) && Ordered(msgs, present)
        invariant forall m :: m in msgs ==> Said(was, now, m.name) == Some(m) && (m.name in now || m.name !in left)
        invariant forall name :: (name in now || (name in was && name !in left)) && Said(was, now, name).Some? ==>
                    Said(was, now, name).value in msgs
        decreases left
      {
        var name :| name in left;
        if name !in now {
          msgs := msgs + [Removed(name)];
        }
        left := left - {name};
      }
      tunnelUp := now;
    }

    /** A release that has not been announced last is, and is remembered. */
    method CheckRelease(available: Option<string>) returns (release: Option<string>)
      requires Valid()
      modifies this`notified, this`announced
      ensures Valid()
      ensures release == if available == Some(old(notified)) then None else available
      ensures release.Some? ==> notified == release.value && announced == old(announced) + [release.value]
      ensures release.None? ==> notified == old(notified) && announced == old(announced)
    {
      release := None;
      if available.Some? && available.value != notified {
        notified := available.value;
        release := available;
        announced := announced + [available.value];
      }
    }

    /** The three resources, independently of each other; the states stay those of the whole history. */
    method CheckResources(c: Config, x: Sample) returns (msgs: seq<(Resource, Notice)>)
      requires Valid()
      modifies this`states, this`passes
      ensures Valid() && passes == old(passes) + [(c, x)]
      ensures msgs == Sent(old(states), Cpu, Reading(x.cpu, x.at, c.cpu, c.cooldown))
                      + Sent(old(states), Mem, Reading(x.mem, x.at, c.mem, c.cooldown))
                      + Sent(old(states), Disk, Reading(x.disk, x.at, c.disk, c.cooldown))
    {
      var cpu := CheckResource(Cpu, Of(c, x, Cpu));
      var mem := CheckResource(Mem, Of(c, x, Mem));
      var disk := CheckResource(Disk, Of(c, x, Disk));
      msgs := cpu + mem + disk;
      assert forall r :: Known(states, r) == Check(Known(old(states), r), Of(c, x, r)).0;
      forall r
        ensures Known(states, r) == After(History(passes + [(c, x)], r))
      {
        HistoryGrows(passes, c, x, r);
      }
      passes := passes + [(c, x)];
    }

    /** One pass: the resources, then the tunnels and the release if those are switched on. */
    method CheckAt(c: Config, x: Sample, tunnels: map<Name, bool>, available: Option<string>)
      returns (msgs: seq<(Resource, Notice)>, changes: seq<Change>, release: Option<string>)
      requires Valid()
      modifies this
      ensures Valid() && passes == old(passes) + [(c, x)]
      ensures msgs == Sent(old(states), Cpu, Reading(x.cpu, x.at, c.cpu, c.cooldown))
                      + Sent(old(states), Mem, Reading(x.mem, x.at, c.mem, c.cooldown))
                      + Sent(old(states), Disk, Reading(x.disk, x.at, c.disk, c.cooldown))
      ensures !c.tunnelDown ==> changes == [] && tunnelUp == old(tunnelUp) && seeded == old(seeded)
      ensures c.tunnelDown ==> seeded && tunnelUp == tunnels && exists k :: Ordered(changes, k)
      ensures c.tunnelDown ==> if old(seeded) then Announces(old(tunnelUp), tunnels, changes) else changes == []
      ensures release == if !c.newRelease || available == Some(old(notified)) then None else available
    {
      msgs := CheckResources(c, x);
      changes, release := [], None;
      if c.tunnelDown {
        ghost var present;
        changes, present := CheckTunnels(tunnels);
      }
      if c.newRelease {
        release := CheckRelease(available);
      }
    }
  }
}
