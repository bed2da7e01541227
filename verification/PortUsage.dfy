/**
 Per-port traffic accounting: AddOrUpdatePort counts in memory, saveUsageData drains the counts into a
 file.  Adds may come between any two phases of a save, and saves may overlap.  A page view that finds no file
 creates one.
 */
module PortUsage {
  import opened Basics

  datatype Entry = Entry(port: int, usage: nat)

  function Get(m: map<int, nat>, port: int): nat {
    if port in m then m[port] else 0
  }

  /** A list read into a map: a later entry for a port replaces an earlier one. */
  function FromList(entries: seq<Entry>): map<int, nat> {
    if entries == [] then map[] else
    var n := |entries| - 1;
    FromList(entries[..n])[entries[n].port := entries[n].usage]
  }

  predicate Distinct(entries: seq<Entry>) {
    forall i, j :: 0 <= i < j < |entries| ==> entries[i].port != entries[j].port
  }

  /** `entries` lists the map `m`, each port once, in some order. */
  predicate Lists(entries: seq<Entry>, m: map<int, nat>) {
    Distinct(entries) && FromList(entries) == m
  }

  function Sum(entries: seq<Entry>): nat {
    if entries == [] then 0 else Sum(entries[..|entries| - 1]) + entries[|entries| - 1].usage
  }

  /** Port by port, the sum modulo 2^64. */
  function Merge(a: map<int, nat>, b: map<int, nat>): map<int, nat> {
    map p | p in a.Keys + b.Keys ::
      if p in a && p in b then Wrap(a[p] + b[p]) else if p in a then a[p] else b[p]
  }

  // ------------------------------------------------------------------------
  // Adds and saves, interleaved
  // ------------------------------------------------------------------------

  /** A file that does not decode is garbled: damaged, or truncated by a write that is not finished. */
  datatype Disk = Missing | Garbled | Listed(entries: seq<Entry>)

  datatype Saver =
    | Loaded(existing: seq<Entry>)
    | Collected(existing: seq<Entry>, current: seq<Entry>)
    | Merged(existing: seq<Entry>, current: seq<Entry>, merged: seq<Entry>, n: nat)  // `n` entries in the total
    | Writing(merged: seq<Entry>)
    | Done

  /**
   `peeked` page views have found no file and not yet opened it; `creating` have, and not yet written to it.
   `added` records everything ever counted for each port, without wrapping.
   */
  datatype State = State(
    store: map<int, nat>, disk: Disk, savers: seq<Saver>, total: nat, added: map<int, nat>,
    peeked: nat, creating: nat)

  /** A state without page views. */
  function Unviewed(
    store: map<int, nat>, disk: Disk, savers: seq<Saver>, total: nat, added: map<int, nat>): State {
    State(store, disk, savers, total, added, 0, 0)
  }

  datatype Step =
    | Add(port: int, usage: nat)
    | Load                                  // step 1 of a new save; gives up on a file it cannot decode
    | Collect(k: nat, current: seq<Entry>)  // step 2, under the lock
    | Reset(k: nat, merged: seq<Entry>)     // step 3, and the total set to zero
    | Tally(k: nat)                         // step 4, one entry
    | Open(k: nat)                          // step 6: the file is opened and truncated
    | OpenFails(k: nat)
    | Finish(k: nat)                        // step 6: the data is written
    | WriteFails(k: nat)                    // step 6: part of it is
    | Peek                                  // a page view finds no file,
    | Create                                // opens and truncates it,
    | CreateFails
    | Null                                  // and writes "null", an empty list
    | NullFails

  const Empty := Unviewed(map[], Missing, [], 0, map[])

  function OnDisk(d: Disk): map<int, nat> {
    if d.Listed? then FromList(d.entries) else map[]
  }

  function Entries(d: Disk): seq<Entry> {
    if d.Listed? then d.entries else []
  }

  predicate Tallied(s: State, k: nat) {
    k < |s.savers| && s.savers[k].Merged? && s.savers[k].n == |s.savers[k].merged|
  }

  predicate Enabled(s: State, a: Step) {
    match a
    case Add(_, usage) => usage < U64
    case Load => true
    case Collect(k, current) => k < |s.savers| && s.savers[k].Loaded? && Lists(current, s.store)
    case Reset(k, merged) =>
      && k < |s.savers| && s.savers[k].Collected?
      && Lists(merged, Merge(FromList(s.savers[k].existing), FromList(s.savers[k].current)))
    case Tally(k) => k < |s.savers| && s.savers[k].Merged? && s.savers[k].n < |s.savers[k].merged|
    case Open(k) => Tallied(s, k)
    case OpenFails(k) => Tallied(s, k)
    case Finish(k) => k < |s.savers| && s.savers[k].Writing?
    case WriteFails(k) => k < |s.savers| && s.savers[k].Writing?
    case Peek => s.disk == Missing
    case Create => s.peeked > 0
    case CreateFails => s.peeked > 0
    case Null => s.creating > 0
    case NullFails => s.creating > 0
  }

  function SetSaver(s: State, k: nat, x: Saver): State
    requires k < |s.savers|
  {
    s.(savers := s.savers[k := x])
  }

  function Next(s: State, a: Step): State
    requires Enabled(s, a)
  {
    match a
    case Add(port, usage) =>
      s.(store := Merge(s.store, map[port := usage]),
         added := s.added[port := Get(s.added, port) + usage])
    case Load => if s.disk == Garbled then s else s.(savers := s.savers + [Loaded(Entries(s.disk))])
    case Collect(k, current) => SetSaver(s, k, Collected(s.savers[k].existing, current)).(store := map[])
    case Reset(k, merged) =>
      SetSaver(s, k, Merged(s.savers[k].existing, s.savers[k].current, merged, 0)).(total := 0)
    case Tally(k) =>
      var x := s.savers[k];
      SetSaver(s, k, x.(n := x.n + 1)).(total := Wrap(s.total + x.merged[x.n].usage))
    case Open(k) => SetSaver(s, k, Writing(s.savers[k].merged)).(disk := Garbled)
    case OpenFails(k) => SetSaver(s, k, Done)
    case Finish(k) => SetSaver(s, k, Done).(disk := Listed(s.savers[k].merged))
    case WriteFails(k) => SetSaver(s, k, Done).(disk := Garbled)
    case Peek => s.(peeked := s.peeked + 1)
    case Create => s.(disk := Garbled, peeked := s.peeked - 1, creating := s.creating + 1)
    case CreateFails => s.(peeked := s.peeked - 1)
    case Null => s.(disk := Listed([]), creating := s.creating - 1)
    case NullFails => s.(disk := Garbled, creating := s.creating - 1)
  }

  predicate Runs(s: State, run: seq<Step>)
    decreases |run|
  {
    run == [] || (Enabled(s, run[0]) && Runs(Next(s, run[0]), run[1..]))
  }

  function After(s: State, run: seq<Step>): State
    requires Runs(s, run)
    decreases |run|
  {
    if run == [] then s else After(Next(s, run[0]), run[1..])
  }

  /** Nothing counted yet beyond what the file holds. */
  predicate Starts(s: State) {
    s.store == map[] && s.savers == [] && s.added == OnDisk(s.disk) && s.peeked == s.creating == 0
  }

  /** Usage of a port that is in the hands of a save: what it drained, and once it writes all that it writes. */
  function Held(x: Saver, port: int): nat {
    match x
    case Collected(_, current) => Get(FromList(current), port)
    case Merged(_, current, _, _) => Get(FromList(current), port)
    case Writing(merged) => Get(FromList(merged), port)
    case _ => 0
  }

  function Flying(savers: seq<Saver>, port: int): nat {
    if savers == [] then 0 else Flying(savers[..|savers| - 1], port) + Held(savers[|savers| - 1], port)
  }

  /** On file, in memory and in the hands of saves. */
  function Kept(s: State, port: int): nat {
    Get(OnDisk(s.disk), port) + Get(s.store, port) + Flying(s.savers, port)
  }

  ghost predicate Conserved(s: State, port: int) {
    Same(Kept(s, port), Get(s.added, port))
  }

  // ------------------------------------------------------------------------
  // The ledger: any interleaving of any number of saves
  // ------------------------------------------------------------------------

  /**
   Opening the file drops whatever reached it since the save loaded it, finishing drops what reached it since
   it was opened, and a failure drops what the save held.  A page view drops what is on file when it acts.
   */
  function Loss(s: State, a: Step, port: int): int
    requires Enabled(s, a)
  {
    match a
    case Open(k) => Get(OnDisk(s.disk), port) - Get(FromList(s.savers[k].existing), port)
    case OpenFails(k) => Held(s.savers[k], port)
    case Finish(k) => Get(OnDisk(s.disk), port)
    case WriteFails(k) => Get(OnDisk(s.disk), port) + Held(s.savers[k], port)
    case Create => Get(OnDisk(s.disk), port)
    case Null => Get(OnDisk(s.disk), port)
    case NullFails => Get(OnDisk(s.disk), port)
    case _ => 0
  }

  function Lost(s: State, run: seq<Step>, port: int): int
    requires Runs(s, run)
    decreases |run|
  {
    if run == [] then 0 else Loss(s, run[0], port) + Lost(Next(s, run[0]), run[1..], port)
  }

  function Gain(a: Step, port: int): nat {
    if a.Add? && a.port == port then a.usage else 0
  }

  lemma MergeGet(a: map<int, nat>, b: map<int, nat>, port: int)
    ensures Same(Get(Merge(a, b), port), Get(a, port) + Get(b, port))
  {
    SameWrapped(Get(a, port) + Get(b, port));
    SameRefl(Get(a, port) + Get(b, port));
  }

  lemma {:induction false} FlyingUpdate(savers: seq<Saver>, k: nat, x: Saver, port: int)
    requires k < |savers|
    ensures Flying(savers[k := x], port) == Flying(savers, port) - Held(savers[k], port) + Held(x, port)
    decreases |savers|
  {
    var n := |savers| - 1;
    if k < n {
      FlyingUpdate(savers[..n], k, x, port);
      assert savers[k := x][..n] == savers[..n][k := x];
    } else {
      assert savers[k := x][..n] == savers[..n];
    }
  }

  lemma Shift(a: int, b: int, c: int)
    requires Same(a, b)
    ensures Same(a + c, b + c)
  {
    SameRefl(c);
    SameAdd(a, b, c, c);
  }

  /** A save in its merge phase has merged what it loaded and what it drained. */
  predicate MergedOk(s: State) {
    forall k :: 0 <= k < |s.savers| ==> SaverOk(s.savers[k])
  }

  predicate SaverOk(x: Saver) {
    match x
    case Collected(_, current) => Distinct(current)
    case Merged(existing, current, merged, n) =>
      Distinct(current) && Lists(merged, Merge(FromList(existing), FromList(current))) && n <= |merged|
    case Writing(merged) => Distinct(merged)
    case _ => true
  }

  lemma {:induction false} LedgerAdd(s: State, p: int, usage: nat, port: int)
    requires Enabled(s, Add(p, usage))
    ensures Same(Kept(Next(s, Add(p, usage)), port), Kept(s, port) + Gain(Add(p, usage), port))
  {
    var one := map[p := usage];
    MergeGet(s.store, one, port);
    Shift(Get(Merge(s.store, one), port), Get(s.store, port) + Get(one, port),
          Get(OnDisk(s.disk), port) + Flying(s.savers, port));
  }

  lemma OpenArith(disk: int, store: int, fly: int, existing: int, current: int, merged: int)
    requires Same(merged, existing + current)
    ensures Same(store + (fly - current + merged) + (disk - existing), disk + store + fly)
  {
    Shift(merged, existing + current, disk + store + fly - existing - current);
  }

  /** Opening the file turns what the save drained into what it is about to write. */
  lemma {:induction false} OpenKeeps(s: State, k: nat, port: int)
    requires Enabled(s, Open(k)) && SaverOk(s.savers[k])
    ensures
      var merged := Merge(FromList(s.savers[k].existing), FromList(s.savers[k].current));
      Kept(Next(s, Open(k)), port) ==
        Get(s.store, port) + (Flying(s.savers, port) - Get(FromList(s.savers[k].current), port) + Get(merged, port))
  {
    FlyingUpdate(s.savers, k, Writing(s.savers[k].merged), port);
  }

  lemma {:induction false} LedgerOpen(s: State, k: nat, port: int)
    requires Enabled(s, Open(k)) && SaverOk(s.savers[k])
    ensures Same(Kept(Next(s, Open(k)), port) + Loss(s, Open(k), port), Kept(s, port))
  {
    var existing, current := FromList(s.savers[k].existing), FromList(s.savers[k].current);
    OpenKeeps(s, k, port);
    MergeGet(existing, current, port);
    OpenArith(Get(OnDisk(s.disk), port), Get(s.store, port), Flying(s.savers, port),
              Get(existing, port), Get(current, port), Get(Merge(existing, current), port));
  }

  predicate ViewStep(a: Step) {
    a.Peek? || a.Create? || a.CreateFails? || a.Null? || a.NullFails?
  }

  lemma {:induction false} LedgerView(s: State, a: Step, port: int)
    requires Enabled(s, a) && ViewStep(a)
    ensures Kept(Next(s, a), port) + Loss(s, a, port) == Kept(s, port)
  {}

  /** Every other step moves usage, or drops exactly its loss. */
  lemma {:induction false} LedgerMove(s: State, a: Step, port: int)
    requires Enabled(s, a) && !a.Add? && !a.Open? && !a.Load? && !ViewStep(a)
    ensures Kept(Next(s, a), port) + Loss(s, a, port) == Kept(s, port)
  {
    FlyingUpdate(s.savers, a.k, Next(s, a).savers[a.k], port);
  }

  lemma {:induction false} LedgerLoad(s: State, port: int)
    ensures Kept(Next(s, Load), port) == Kept(s, port)
  {
    assert (s.savers + [Loaded(Entries(s.disk))])[..|s.savers|] == s.savers;
  }

  /** What a step adds is kept or lost. */
  lemma {:induction false} LedgerStep(s: State, a: Step, port: int)
    requires Enabled(s, a) && MergedOk(s)
    ensures Same(Kept(Next(s, a), port) + Loss(s, a, port), Kept(s, port) + Gain(a, port))
  {
    match a {
      case Add(p, usage) => LedgerAdd(s, p, usage, port);
      case Open(k) => LedgerOpen(s, k, port);
      case Load =>
        LedgerLoad(s, port);
        SameRefl(Kept(s, port));
      case _ =>
        if ViewStep(a) {
          LedgerView(s, a, port);
        } else {
          LedgerMove(s, a, port);
        }
        SameRefl(Kept(s, port));
    }
  }

  lemma MergedStep(s: State, a: Step)
    requires Enabled(s, a) && MergedOk(s)
    ensures MergedOk(Next(s, a))
  {}

  lemma Carry(after: int, before: int, loss: int, gain: int, earlier: int, added: int)
    requires Same(after + loss, before + gain) && Same(before + earlier, added)
    ensures Same(after + (earlier + loss), added + gain)
  {
    Shift(after + loss, before + gain, earlier);
    Shift(before + earlier, added, gain);
    assert after + loss + earlier == after + (earlier + loss);
    assert before + gain + earlier == before + earlier + gain;
    SameTrans(after + (earlier + loss), before + earlier + gain, added + gain);
  }

  /** After a step the books still balance, with what it lost added to what was lost `earlier`. */
  lemma {:induction false} LedgerNext(s: State, a: Step, port: int, earlier: int)
    requires MergedOk(s) && Enabled(s, a) && Same(Kept(s, port) + earlier, Get(s.added, port))
    ensures MergedOk(Next(s, a))
    ensures Same(Kept(Next(s, a), port) + (earlier + Loss(s, a, port)), Get(Next(s, a).added, port))
  {
    LedgerStep(s, a, port);
    MergedStep(s, a);
    Carry(Kept(Next(s, a), port), Kept(s, port), Loss(s, a, port), Gain(a, port), earlier, Get(s.added, port));
    AddedGrows(s, a, port);
  }

  lemma AddedGrows(s: State, a: Step, port: int)
    requires Enabled(s, a)
    ensures Get(Next(s, a).added, port) == Get(s.added, port) + Gain(a, port)
  {}

  lemma {:induction false} Ledger(s: State, run: seq<Step>, port: int, earlier: int)
    requires MergedOk(s) && Runs(s, run) && Same(Kept(s, port) + earlier, Get(s.added, port))
    ensures Same(Kept(After(s, run), port) + (earlier + Lost(s, run, port)), Get(After(s, run).added, port))
    decreases |run|
  {
    if run != [] {
      LedgerNext(s, run[0], port, earlier);
      Ledger(Next(s, run[0]), run[1..], port, earlier + Loss(s, run[0], port));
    }
  }

  lemma StartsConserved(s: State, port: int)
    requires Starts(s)
    ensures Conserved(s, port) && MergedOk(s)
  {
    SameRefl(Get(s.added, port));
  }

  /**
   After any interleaving of adds, page views and any number of saves, overlapping or not, that succeed or fail
   at any point, a port's usage on file, in memory and in flight is everything ever added for it exactly when the
   losses come to nothing.
   */
  lemma {:induction false} ConservedIffNothingLost(s: State, run: seq<Step>, port: int)
    requires Conserved(s, port) && MergedOk(s) && Runs(s, run)
    ensures Conserved(After(s, run), port) <==> Same(Lost(s, run, port), 0)
  {
    Ledger(s, run, port, 0);
    SameWithout(Get(After(s, run).added, port), Kept(After(s, run), port), Lost(s, run, port));
  }

  // ------------------------------------------------------------------------
  // Saves that do not overlap
  // ------------------------------------------------------------------------

  predicate AllDone(savers: seq<Saver>) {
    forall k :: 0 <= k < |savers| ==> savers[k] == Done
  }

  /** A save starts when the last has finished, its write succeeds, and a view acts on a file that holds nothing. */
  predicate InTurn(s: State, a: Step) {
    && (a.Load? ==> AllDone(s.savers))
    && !a.OpenFails? && !a.WriteFails?
    && (a.Create? || a.Null? || a.NullFails? ==> Entries(s.disk) == [])
  }

  predicate Serial(s: State, run: seq<Step>)
    requires Runs(s, run)
    decreases |run|
  {
    run == [] || (InTurn(s, run[0]) && Serial(Next(s, run[0]), run[1..]))
  }

  /** The save in progress, if any, builds on what the file holds. */
  predicate UpToDate(x: Saver, disk: Disk) {
    match x
    case Writing(_) => Entries(disk) == []
    case Done => true
    case _ => x.existing == Entries(disk)
  }

  predicate OneAtATime(s: State) {
    forall k :: 0 <= k < |s.savers| && s.savers[k] != Done ==>
      k == |s.savers| - 1 && UpToDate(s.savers[k], s.disk)
  }

  lemma SerialStep(s: State, a: Step)
    requires OneAtATime(s) && Enabled(s, a) && InTurn(s, a)
    ensures OneAtATime(Next(s, a)) && forall port :: Loss(s, a, port) == 0
  {}

  lemma {:induction false} SerialLosesNothing(s: State, run: seq<Step>, port: int)
    requires OneAtATime(s) && Runs(s, run) && Serial(s, run)
    ensures Lost(s, run, port) == 0
    decreases |run|
  {
    if run != [] {
      SerialStep(s, run[0]);
      SerialLosesNothing(Next(s, run[0]), run[1..], port);
    }
  }

  /**
   Saves that do not overlap and whose writes succeed conserve every port, with adds between the phases of a
   save, saves that give up on an undecodable file, and page views that act on a file that holds nothing.
   */
  lemma {:induction false} UsageConserved(s: State, run: seq<Step>, port: int)
    requires Starts(s) && Runs(s, run) && Serial(s, run)
    ensures Conserved(After(s, run), port)
  {
    StartsConserved(s, port);
    SerialLosesNothing(s, run, port);
    SameRefl(0);
    ConservedIffNothingLost(s, run, port);
  }

  // ------------------------------------------------------------------------
  // The total beside the file
  // ------------------------------------------------------------------------

  /** The save in progress, or Done. */
  function Active(s: State): Saver {
    if s.savers == [] then Done else s.savers[|s.savers| - 1]
  }

  /** A save that is adding up has added up the entries so far. */
  predicate TallyOk(s: State) {
    match Active(s)
    case Merged(_, _, merged, n) => n <= |merged| && s.total == Wrap(Sum(merged[..n]))
    case Writing(merged) => s.total == Wrap(Sum(merged))
    case _ => true
  }

  /** The file holds each port once, and the total is its sum. */
  predicate TotalRight(s: State) {
    Distinct(Entries(s.disk)) && s.total == Wrap(Sum(Entries(s.disk)))
  }

  predicate Settled(s: State) {
    !Active(s).Merged? && !Active(s).Writing?
  }

  lemma TallyOne(s: State, k: nat)
    requires OneAtATime(s) && TallyOk(s) && Enabled(s, Tally(k))
    ensures TallyOk(Next(s, Tally(k)))
  {
    var x := s.savers[k];
    WrapTwice(Sum(x.merged[..x.n]), x.merged[x.n].usage);
    assert x.merged[..x.n + 1][..x.n] == x.merged[..x.n];
  }

  lemma TallyStep(s: State, a: Step)
    requires OneAtATime(s) && MergedOk(s) && TallyOk(s) && Enabled(s, a)
    requires InTurn(s, a)
    ensures TallyOk(Next(s, a))
    ensures a.Finish? || (Settled(s) ==> TotalRight(s)) ==> Settled(Next(s, a)) ==> TotalRight(Next(s, a))
  {
    if a.Tally? {
      TallyOne(s, a.k);
    } else if a.Open? {
      var m := s.savers[a.k].merged;
      assert m[..|m|] == m;
    }
  }

  lemma {:induction false} StaysRight(s: State, run: seq<Step>)
    requires OneAtATime(s) && MergedOk(s) && TallyOk(s) && (Settled(s) ==> TotalRight(s))
    requires Runs(s, run) && Serial(s, run)
    ensures Settled(After(s, run)) ==> TotalRight(After(s, run))
    decreases |run|
  {
    if run != [] {
      SerialStep(s, run[0]);
      MergedStep(s, run[0]);
      TallyStep(s, run[0]);
      StaysRight(Next(s, run[0]), run[1..]);
    }
  }

  lemma {:induction false} RightAfterFinish(s: State, run: seq<Step>, i: nat)
    requires OneAtATime(s) && MergedOk(s) && TallyOk(s)
    requires Runs(s, run) && Serial(s, run) && i < |run| && run[i].Finish?
    ensures Settled(After(s, run)) ==> TotalRight(After(s, run))
    decreases |run|
  {
    SerialStep(s, run[0]);
    MergedStep(s, run[0]);
    TallyStep(s, run[0]);
    if i == 0 {
      StaysRight(Next(s, run[0]), run[1..]);
    } else {
      RightAfterFinish(Next(s, run[0]), run[1..], i - 1);
    }
  }

  /**
   After any run of non-overlapping saves of which one has completed, the file holds each port once and the
   total is the sum of the file, except while a save is adding up or writing.
   */
  lemma {:induction false} TotalMatchesFile(s: State, run: seq<Step>, i: nat)
    requires Starts(s) && Runs(s, run) && Serial(s, run) && i < |run| && run[i].Finish?
    requires Settled(After(s, run))
    ensures TotalRight(After(s, run))
  {
    RightAfterFinish(s, run, i);
  }

  lemma LastApart(list: seq<Entry>)
    requires Distinct(list) && list != []
    ensures
      var n := |list| - 1;
      list[n].port !in FromList(list[..n]) && FromList(list) - {list[n].port} == FromList(list[..n])
  {
    FromListKeys(list[..|list| - 1]);
  }

  lemma PutBack(list: seq<Entry>, x: Entry)
    requires Distinct(list) && x.port !in FromList(list)
    ensures Lists(list + [x], FromList(list)[x.port := x.usage]) && Sum(list + [x]) == Sum(list) + x.usage
  {
    FromListKeys(list);
    assert (list + [x])[..|list|] == list;
  }

  /** Taking one entry out of a list of distinct ports. */
  lemma {:induction false} Without(list: seq<Entry>, i: nat)
    requires Distinct(list) && i < |list|
    ensures
      var rest := list[..i] + list[i + 1..];
      Lists(rest, FromList(list) - {list[i].port}) && Sum(list) == Sum(rest) + list[i].usage
    decreases |list|
  {
    var n := |list| - 1;
    var rest := list[..i] + list[i + 1..];
    LastApart(list);
    if i == n {
      assert rest == list[..n];
    } else {
      var head := list[..n][..i] + list[..n][i + 1..];
      Without(list[..n], i);
      assert rest == head + [list[n]];
      PutBack(head, list[n]);
      assert FromList(list) - {list[i].port} == FromList(head)[list[n].port := list[n].usage];
    }
  }

  lemma NothingListed(list: seq<Entry>)
    ensures FromList(list) == map[] ==> list == []
  {
    if list != [] {
      assert list[|list| - 1].port in FromList(list);
    }
  }

  /** The sum depends on the map listed, not on the order. */
  lemma {:induction false} SumOfMap(a: seq<Entry>, b: seq<Entry>, m: map<int, nat>)
    requires Lists(a, m) && Lists(b, m)
    ensures Sum(a) == Sum(b)
    decreases |a|
  {
    FromListKeys(b);
    if a == [] {
      NothingListed(b);
    } else {
      var n := |a| - 1;
      FromListKeys(a);
      assert a[n].port in m;
      var i :| 0 <= i < |b| && b[i].port == a[n].port;
      Without(a, n);
      Without(b, i);
      assert a[..n] + a[n + 1..] == a[..n];
      SumOfMap(a[..n], b[..i] + b[i + 1..], m - {a[n].port});
    }
  }

  /** A list of a map with `port` in it, taken apart at that port. */
  lemma {:induction false} TakeOut(list: seq<Entry>, m: map<int, nat>, port: int) returns (rest: seq<Entry>)
    requires Lists(list, m) && port in m
    ensures Lists(rest, m - {port}) && Sum(list) == Sum(rest) + m[port]
  {
    FromListKeys(list);
    var i :| 0 <= i < |list| && list[i].port == port;
    Without(list, i);
    rest := list[..i] + list[i + 1..];
  }

  /** Undoes the merge of one entry in a list of the result. */
  lemma {:induction false} TakeBack(base: map<int, nat>, some: map<int, nat>, x: Entry, m: seq<Entry>)
    returns (before: seq<Entry>)
    requires x.port !in some && Lists(m, Merge(base, some[x.port := x.usage]))
    ensures Lists(before, Merge(base, some)) && Same(Sum(m), Sum(before) + x.usage)
  {
    var all := Merge(base, some[x.port := x.usage]);
    MergeOneMore(base, some, x);
    before := TakeOut(m, all, x.port);
    if x.port in base {
      var was := base[x.port];
      SameWrapped(was + x.usage);
      Shift(Wrap(was + x.usage), was + x.usage, Sum(before));
      PutBack(before, Entry(x.port, was));
      before := before + [Entry(x.port, was)];
      assert (all - {x.port})[x.port := was] == Merge(base, some);
    } else {
      SameRefl(Sum(m));
      assert all - {x.port} == Merge(base, some);
    }
  }

  lemma ChainSum(all: int, before: int, more: int, others: int)
    requires Same(all, before + more) && Same(before, others)
    ensures Same(all, others + more)
  {
    Shift(before, others, more);
    SameTrans(all, before + more, others + more);
  }

  /** The sum of a merged list is the sum of both lists, modulo 2^64. */
  lemma {:induction false} SumOfMerge(e: seq<Entry>, c: seq<Entry>, m: seq<Entry>)
    requires Distinct(e) && Distinct(c) && Lists(m, Merge(FromList(e), FromList(c)))
    ensures Same(Sum(m), Sum(e) + Sum(c))
    decreases |c|
  {
    if c == [] {
      assert Merge(FromList(e), map[]) == FromList(e);
      SumOfMap(m, e, FromList(e));
      SameRefl(Sum(e));
    } else {
      var n := |c| - 1;
      FromListKeys(c[..n]);
      var before := TakeBack(FromList(e), FromList(c[..n]), c[n], m);
      SumOfMerge(e, c[..n], before);
      ChainSum(Sum(m), Sum(before), c[n].usage, Sum(e) + Sum(c[..n]));
    }
  }

  /** A save that cannot open the file leaves a total that is right exactly when it had drained nothing in all. */
  lemma {:induction false} FailedWriteTotal(s: State, k: nat)
    requires OneAtATime(s) && MergedOk(s) && TallyOk(s) && Enabled(s, OpenFails(k)) && Distinct(Entries(s.disk))
    ensures
      Next(s, OpenFails(k)).total == Wrap(Sum(Entries(s.disk))) <==> Same(Sum(s.savers[k].current), 0)
  {
    var x := s.savers[k];
    assert SaverOk(x) && x.merged[..x.n] == x.merged;
    SumOfMerge(x.existing, x.current, x.merged);
    SameIffEqual(Sum(x.merged), Sum(x.existing));
    SameSym(Sum(x.merged), Sum(x.existing) + Sum(x.current));
    SumsAgreeIff(Sum(x.merged), Sum(x.existing), Sum(x.current));
  }

  lemma SumsAgreeIff(merged: int, was: int, more: int)
    requires Same(merged, was + more)
    ensures Same(merged, was) <==> Same(more, 0)
  {
    SameSym(merged, was + more);
    SameWithout(merged, was, more);
    if Same(merged, was) {
      SameSym(merged, was);
    }
    if Same(was, merged) {
      SameSym(was, merged);
    }
  }

  // ------------------------------------------------------------------------
  // Where usage is lost
  // ------------------------------------------------------------------------

  /** A save that cannot open the file has already drained the counts: it keeps a port only if it held nothing. */
  lemma {:induction false} FailedWriteLoses(s: State, k: nat, port: int)
    requires Conserved(s, port) && MergedOk(s) && Enabled(s, OpenFails(k))
    ensures Conserved(Next(s, OpenFails(k)), port) <==> Same(Held(s.savers[k], port), 0)
  {
    ConservedIffNothingLost(s, [OpenFails(k)], port);
  }

  /** A write that fails part way drops what was on file and what the save held. */
  lemma {:induction false} BrokenWriteLoses(s: State, k: nat, port: int)
    requires Conserved(s, port) && MergedOk(s) && Enabled(s, WriteFails(k))
    ensures
      Conserved(Next(s, WriteFails(k)), port) <==>
      Same(Get(OnDisk(s.disk), port) + Held(s.savers[k], port), 0)
  {
    ConservedIffNothingLost(s, [WriteFails(k)], port);
  }

  /** A page view that had found no file conserves a port exactly when the file now there holds nothing for it. */
  lemma {:induction false} ViewLoses(s: State, port: int)
    requires Conserved(s, port) && MergedOk(s) && Enabled(s, Create)
    ensures Conserved(Next(s, Create), port) <==> Same(Get(OnDisk(s.disk), port), 0)
  {
    ConservedIffNothingLost(s, [Create], port);
  }

  function Written(s: State, k: nat): State
    requires Tallied(s, k)
  {
    Next(Next(s, Open(k)), Finish(k))
  }

  /** A write conserves a port exactly when the file still holds for it what the save loaded. */
  lemma {:induction false} StaleWriteLoses(s: State, k: nat, port: int)
    requires Conserved(s, port) && MergedOk(s) && Tallied(s, k)
    ensures
      Conserved(Written(s, k), port) <==>
      Same(Get(OnDisk(s.disk), port) - Get(FromList(s.savers[k].existing), port), 0)
  {
    var t := Next(s, Open(k));
    ConservedIffNothingLost(s, [Open(k), Finish(k)], port);
    assert [Open(k), Finish(k)][1..] == [Finish(k)];
    assert After(t, [Finish(k)]) == After(Next(t, Finish(k)), []);
    assert Lost(t, [Finish(k)], port) == 0;
  }

  /** A write onto the file its save loaded keeps the port and leaves there what was there and what it held. */
  lemma {:induction false} CurrentWriteKeeps(s: State, k: nat, port: int)
    requires Conserved(s, port) && MergedOk(s) && Tallied(s, k) && s.savers[k].existing == Entries(s.disk)
    ensures
      && Conserved(Written(s, k), port) && MergedOk(Written(s, k))
      && Same(Get(OnDisk(Written(s, k).disk), port), Get(OnDisk(s.disk), port) + Held(s.savers[k], port))
  {
    SameRefl(0);
    StaleWriteLoses(s, k, port);
    MergedStep(s, Open(k));
    MergedStep(Next(s, Open(k)), Finish(k));
    assert SaverOk(s.savers[k]);
    MergeGet(FromList(s.savers[k].existing), FromList(s.savers[k].current), port);
  }

  /** A write onto a file that has grown by `held` since its save loaded it. */
  lemma {:induction false} LateWriteLoses(s: State, k: nat, was: nat, held: nat, port: int)
    requires Conserved(s, port) && MergedOk(s) && Tallied(s, k)
    requires Get(FromList(s.savers[k].existing), port) == was && Same(Get(OnDisk(s.disk), port), was + held)
    ensures Conserved(Written(s, k), port) <==> Same(held, 0)
  {
    StaleWriteLoses(s, k, port);
    var back: int := 0 - was;
    Shift(Get(OnDisk(s.disk), port), was + held, back);
    SumsAgreeIff(Get(OnDisk(s.disk), port) - was, 0, held);
  }

  /** Of two saves that loaded the same file, the second to write keeps a port only if the first held nothing for it. */
  lemma {:induction false} OverlappingSavesLose(s: State, j: nat, k: nat, port: int)
    requires Conserved(s, port) && MergedOk(s) && j != k && Tallied(s, j) && Tallied(s, k)
    requires s.savers[j].existing == s.savers[k].existing == Entries(s.disk)
    ensures Conserved(Written(Written(s, j), k), port) <==> Same(Held(s.savers[j], port), 0)
  {
    CurrentWriteKeeps(s, j, port);
    LateWriteLoses(Written(s, j), k, Get(OnDisk(s.disk), port), Held(s.savers[j], port), port);
  }

  // ------------------------------------------------------------------------
  // A damaged file
  // ------------------------------------------------------------------------

  /** The file does not decode, and nothing under way will replace it. */
  predicate Damaged(s: State) {
    s.disk == Garbled && AllDone(s.savers) && s.peeked == s.creating == 0
  }

  lemma {:induction false} DamagedForever(s: State, run: seq<Step>)
    requires Damaged(s) && Runs(s, run)
    ensures Damaged(After(s, run)) && forall i :: 0 <= i < |run| ==> !run[i].Finish?
    decreases |run|
  {
    if run != [] {
      DamagedForever(Next(s, run[0]), run[1..]);
    }
  }

  /** Every map can be listed. */
  lemma {:induction false} Listing(m: map<int, nat>) returns (list: seq<Entry>)
    ensures Lists(list, m)
    decreases |m|
  {
    SomeMember(m.Keys);
    if m.Keys == {} {
      list := [];
      assert m == map[];
    } else {
      var p :| p in m;
      var rest := m - {p};
      assert rest.Keys == m.Keys - {p};
      list := Listing(rest);
      PutBack(list, Entry(p, m[p]));
      list := list + [Entry(p, m[p])];
      assert rest[p := m[p]] == m;
    }
  }

  /** A run that ends with a completed save. */
  predicate Completes(s: State, run: seq<Step>) {
    Runs(s, run) && run != [] && run[|run| - 1].Finish?
  }

  lemma CompletesAfter(s: State, a: Step, rest: seq<Step>)
    requires Enabled(s, a) && Completes(Next(s, a), rest)
    ensures Completes(s, [a] + rest)
  {
    StepThen(s, a, rest);
  }

  lemma {:induction false} TallyUp(s: State, k: nat) returns (run: seq<Step>)
    requires k < |s.savers| && s.savers[k].Merged? && s.savers[k].n <= |s.savers[k].merged|
    ensures Completes(s, run)
    decreases |s.savers[k].merged| - s.savers[k].n
  {
    if s.savers[k].n < |s.savers[k].merged| {
      var rest := TallyUp(Next(s, Tally(k)), k);
      CompletesAfter(s, Tally(k), rest);
      run := [Tally(k)] + rest;
    } else {
      var t := Next(s, Open(k));
      assert Runs(t, [Finish(k)]) && Completes(t, [Finish(k)]);
      CompletesAfter(s, Open(k), [Finish(k)]);
      run := [Open(k)] + [Finish(k)];
    }
  }

  /** A save under way can be carried to its end. */
  lemma {:induction false} CarryOn(s: State, k: nat) returns (run: seq<Step>)
    requires k < |s.savers| && s.savers[k] != Done && SaverOk(s.savers[k])
    ensures Completes(s, run)
    decreases if s.savers[k].Loaded? then 2 else if s.savers[k].Collected? then 1 else 0
  {
    match s.savers[k] {
      case Loaded(_) =>
        var current := Listing(s.store);
        var rest := CarryOn(Next(s, Collect(k, current)), k);
        CompletesAfter(s, Collect(k, current), rest);
        run := [Collect(k, current)] + rest;
      case Collected(existing, current) =>
        var merged := Listing(Merge(FromList(existing), FromList(current)));
        var rest := TallyUp(Next(s, Reset(k, merged)), k);
        CompletesAfter(s, Reset(k, merged), rest);
        run := [Reset(k, merged)] + rest;
      case Merged(_, _, _, _) => run := TallyUp(s, k);
      case Writing(_) =>
        run := [Finish(k)];
        assert Runs(s, run);
    }
  }

  lemma {:induction false} SaveOnce(s: State) returns (run: seq<Step>)
    requires s.disk != Garbled
    ensures Completes(s, run)
  {
    var rest := CarryOn(Next(s, Load), |s.savers|);
    CompletesAfter(s, Load, rest);
    run := [Load] + rest;
  }

  lemma {:induction false} CreatedSave(s: State) returns (run: seq<Step>)
    requires s.creating > 0
    ensures Completes(s, run)
  {
    var rest := SaveOnce(Next(s, Null));
    CompletesAfter(s, Null, rest);
    run := [Null] + rest;
  }

  /** A save can still complete exactly when the file is not damaged for good. */
  lemma {:induction false} RecoversIff(s: State)
    requires MergedOk(s)
    ensures (exists run :: Completes(s, run)) <==> !Damaged(s)
  {
    if run :| Completes(s, run) {
      if Damaged(s) {
        DamagedForever(s, run);
      }
    }
    if !Damaged(s) {
      var run;
      if s.disk != Garbled {
        run := SaveOnce(s);
      } else if s.creating > 0 {
        run := CreatedSave(s);
      } else if s.peeked > 0 {
        var rest := CreatedSave(Next(s, Create));
        CompletesAfter(s, Create, rest);
        run := [Create] + rest;
      } else {
        var k :| 0 <= k < |s.savers| && s.savers[k] != Done;
        assert SaverOk(s.savers[k]);
        run := CarryOn(s, k);
      }
      assert Completes(s, run);
    }
  }

  /** A page view that cannot create the file, or cannot write to it, mends nothing. */
  lemma {:induction false} FailedViewMendsNothing(s: State, a: Step)
    requires s.disk == Garbled && AllDone(s.savers) && MergedOk(s) && s.peeked + s.creating == 1
    requires a == if s.peeked == 1 then CreateFails else NullFails
    ensures Enabled(s, a) && Damaged(Next(s, a)) && forall run :: !Completes(Next(s, a), run)
  {
    RecoversIff(Next(s, a));
  }

  // ------------------------------------------------------------------------
  // Runs that lose usage
  // ------------------------------------------------------------------------

  lemma {:induction false} Follow(s: State, run: seq<Step>, states: seq<State>)
    requires |states| == |run| + 1 && states[0] == s
    requires forall i :: 0 <= i < |run| ==> Enabled(states[i], run[i]) && states[i + 1] == Next(states[i], run[i])
    ensures Runs(s, run) && After(s, run) == states[|run|]
    decreases |run|
  {
    if run != [] {
      Follow(states[1], run[1..], states[1..]);
    }
  }

  lemma OneEntry(port: int, usage: nat)
    ensures Lists([Entry(port, usage)], map[port := usage]) && Sum([Entry(port, usage)]) == usage
    ensures Merge(map[], map[port := usage]) == map[port := usage]
  {
    assert [Entry(port, usage)][..0] == [];
  }

  lemma {:induction false} StepThen(s: State, a: Step, rest: seq<Step>)
    requires Enabled(s, a) && Runs(Next(s, a), rest)
    ensures Runs(s, [a] + rest) && After(s, [a] + rest) == After(Next(s, a), rest)
  {
    assert ([a] + rest)[1..] == rest;
  }

  /** The run goes from `s` to `t`. */
  predicate Leads(s: State, run: seq<Step>, t: State) {
    Runs(s, run) && After(s, run) == t
  }

  lemma {:induction false} LeadsVia(s: State, run: seq<Step>, t: State)
    requires Leads(s, run, t) && run != []
    ensures Enabled(s, run[0]) && Leads(Next(s, run[0]), run[1..], t)
  {}

  lemma {:induction false} LeadsOn(s: State, a: Step, rest: seq<Step>, t: State)
    requires Enabled(s, a) && Leads(Next(s, a), rest, t)
    ensures Leads(s, [a] + rest, t)
  {
    StepThen(s, a, rest);
  }

  lemma {:induction false} RunsConcat(s: State, first: seq<Step>, t: State, second: seq<Step>, u: State)
    requires Leads(s, first, t) && Leads(t, second, u)
    ensures Leads(s, first + second, u)
    decreases |first|
  {
    if first == [] {
      assert first + second == second;
    } else {
      LeadsVia(s, first, t);
      RunsConcat(Next(s, first[0]), first[1..], t, second, u);
      LeadsOn(s, first[0], first[1..] + second, u);
      assert first + second == [first[0]] + (first[1..] + second);
    }
  }

  lemma {:induction false} DoneHoldNothing(savers: seq<Saver>, port: int)
    requires AllDone(savers)
    ensures Flying(savers, port) == 0
    decreases |savers|
  {
    if savers != [] {
      DoneHoldNothing(savers[..|savers| - 1], port);
    }
  }

  lemma Gone(s: State, port: int, usage: nat)
    requires 0 < usage < U64 && Get(s.added, port) == usage
    requires s.store == map[] && OnDisk(s.disk) == map[] && AllDone(s.savers)
    ensures !Conserved(s, port)
  {
    DoneHoldNothing(s.savers, port);
    if Conserved(s, port) {
      SameSmall(0, usage);
    }
  }

  /** One counted port and one save, up to where it has added up. */
  lemma UpToTally(s: State, port: int, usage: nat) returns (run: seq<Step>)
    requires usage < U64 && s.store == map[] && s.disk == Missing && s.savers == [] && s.added == map[]
    ensures Runs(s, run)
    ensures
      var m, e := map[port := usage], [Entry(port, usage)];
      After(s, run) == s.(savers := [Merged([], e, e, 1)], total := usage, added := m)
  {
    OneEntry(port, usage);
    var m, e := map[port := usage], [Entry(port, usage)];
    var counted := s.(store := m, added := m);
    var states := [
      s,
      counted,
      counted.(savers := [Loaded([])]),
      counted.(store := map[], savers := [Collected([], e)]),
      counted.(store := map[], savers := [Merged([], e, e, 0)], total := 0),
      counted.(store := map[], savers := [Merged([], e, e, 1)], total := usage)];
    run := [Add(port, usage), Load, Collect(0, e), Reset(0, e), Tally(0)];
    Follow(s, run, states);
  }

  /** One counted port, one save, and a file that cannot be opened: the usage is gone. */
  lemma FailedSaveRun(port: int, usage: nat) returns (run: seq<Step>)
    requires 0 < usage < U64
    ensures Starts(Empty) && Runs(Empty, run) && !Conserved(After(Empty, run), port)
  {
    var first := UpToTally(Empty, port, usage);
    var s := After(Empty, first);
    Follow(s, [OpenFails(0)], [s, s.(savers := [Done])]);
    RunsConcat(Empty, first, After(Empty, first), [OpenFails(0)], After(After(Empty, first), [OpenFails(0)]));
    run := first + [OpenFails(0)];
    Gone(After(Empty, run), port, usage);
  }

  /** The same, with a write that fails part way: the usage is gone, and no save will ever complete again. */
  lemma DamagedRun(port: int, usage: nat) returns (run: seq<Step>)
    requires 0 < usage < U64
    ensures Starts(Empty) && Runs(Empty, run) && !Conserved(After(Empty, run), port)
    ensures Damaged(After(Empty, run)) && forall more :: !Completes(After(Empty, run), more)
  {
    var first := UpToTally(Empty, port, usage);
    var s := After(Empty, first);
    var second, e := [Open(0), WriteFails(0)], [Entry(port, usage)];
    Follow(s, second, [s, s.(savers := [Writing(e)], disk := Garbled), s.(savers := [Done], disk := Garbled)]);
    RunsConcat(Empty, first, After(Empty, first), second, After(After(Empty, first), second));
    run := first + second;
    Gone(After(Empty, run), port, usage);
    RecoversIff(After(Empty, run));
  }

  lemma SaveThenView(s: State, port: int, usage: nat) returns (run: seq<Step>)
    requires |s.savers| == 1 && s.peeked == 1
    requires s.savers[0] == Merged([], [Entry(port, usage)], [Entry(port, usage)], 1)
    ensures Runs(s, run)
    ensures After(s, run) == s.(savers := [Done], disk := Garbled, peeked := 0, creating := s.creating + 1)
  {
    var e := [Entry(port, usage)];
    var saved := s.(savers := [Done], disk := Listed(e));
    run := [Open(0), Finish(0), Create];
    Follow(s, run, [s, s.(savers := [Writing(e)], disk := Garbled), saved,
                    saved.(disk := Garbled, peeked := 0, creating := s.creating + 1)]);
  }

  /** A page view looks before a save and acts after it: no save fails or overlaps, and the usage is gone. */
  lemma ViewRun(port: int, usage: nat) returns (run: seq<Step>)
    requires 0 < usage < U64
    ensures Starts(Empty) && Runs(Empty, run) && !Conserved(After(Empty, run), port)
  {
    var looked := Empty.(peeked := 1);
    Follow(Empty, [Peek], [Empty, looked]);
    var save := UpToTally(looked, port, usage);
    RunsConcat(Empty, [Peek], After(Empty, [Peek]), save, After(After(Empty, [Peek]), save));
    var last := SaveThenView(After(looked, save), port, usage);
    RunsConcat(Empty, [Peek] + save, After(Empty, [Peek] + save), last, After(After(Empty, [Peek] + save), last));
    run := [Peek] + save + last;
    Gone(After(Empty, run), port, usage);
  }

  /** Two saves load before either writes; the first has drained the one counted port. */
  lemma BothLoad(port: int, usage: nat) returns (run: seq<Step>)
    requires 0 < usage < U64
    ensures Runs(Empty, run)
    ensures
      var m, e := map[port := usage], [Entry(port, usage)];
      After(Empty, run) == Unviewed(map[], Missing, [Collected([], e), Collected([], [])], 0, m)
  {
    OneEntry(port, usage);
    var m, e := map[port := usage], [Entry(port, usage)];
    var states := [
      Empty,
      Unviewed(m, Missing, [], 0, m),
      Unviewed(m, Missing, [Loaded([])], 0, m),
      Unviewed(m, Missing, [Loaded([]), Loaded([])], 0, m),
      Unviewed(map[], Missing, [Collected([], e), Loaded([])], 0, m),
      Unviewed(map[], Missing, [Collected([], e), Collected([], [])], 0, m)];
    run := [Add(port, usage), Load, Load, Collect(0, e), Collect(1, [])];
    Follow(Empty, run, states);
  }

  lemma FirstWrites(s: State, port: int, usage: nat) returns (run: seq<Step>)
    requires usage < U64
    requires
      var m, e := map[port := usage], [Entry(port, usage)];
      s == Unviewed(map[], Missing, [Collected([], e), Collected([], [])], 0, m)
    ensures Runs(s, run)
    ensures
      var m, e := map[port := usage], [Entry(port, usage)];
      After(s, run) == Unviewed(map[], Listed(e), [Done, Collected([], [])], usage, m)
  {
    OneEntry(port, usage);
    var m, e := map[port := usage], [Entry(port, usage)];
    var states := [
      s,
      Unviewed(map[], Missing, [Merged([], e, e, 0), Collected([], [])], 0, m),
      Unviewed(map[], Missing, [Merged([], e, e, 1), Collected([], [])], usage, m),
      Unviewed(map[], Garbled, [Writing(e), Collected([], [])], usage, m),
      Unviewed(map[], Listed(e), [Done, Collected([], [])], usage, m)];
    run := [Reset(0, e), Tally(0), Open(0), Finish(0)];
    Follow(s, run, states);
  }

  lemma SecondWrites(s: State) returns (run: seq<Step>)
    requires |s.savers| == 2 && s.savers[0] == Done && s.savers[1] == Collected([], [])
    ensures Runs(s, run)
    ensures After(s, run) == s.(disk := Listed([]), savers := [Done, Done], total := 0)
  {
    var states := [
      s,
      s.(savers := [Done, Merged([], [], [], 0)], total := 0),
      s.(disk := Garbled, savers := [Done, Writing([])], total := 0),
      s.(disk := Listed([]), savers := [Done, Done], total := 0)];
    run := [Reset(1, []), Open(1), Finish(1)];
    Follow(s, run, states);
  }

  /** Of two saves that load before either writes, the second to write drops the usage the first has written. */
  lemma OverlapRun(port: int, usage: nat) returns (run: seq<Step>)
    requires 0 < usage < U64
    ensures Starts(Empty) && Runs(Empty, run) && !Conserved(After(Empty, run), port)
  {
    var first := BothLoad(port, usage);
    var second := FirstWrites(After(Empty, first), port, usage);
    RunsConcat(Empty, first, After(Empty, first), second, After(After(Empty, first), second));
    var third := SecondWrites(After(Empty, first + second));
    RunsConcat(Empty, first + second, After(Empty, first + second), third, After(After(Empty, first + second), third));
    run := first + second + third;
    Gone(After(Empty, run), port, usage);
  }

  // ------------------------------------------------------------------------
  // The code
  // ------------------------------------------------------------------------

  lemma {:induction false} FromListKeys(entries: seq<Entry>)
    ensures forall p :: p in FromList(entries) <==> exists i :: 0 <= i < |entries| && entries[i].port == p
    ensures Distinct(entries) ==> forall i :: 0 <= i < |entries| ==>
              entries[i].port in FromList(entries) && FromList(entries)[entries[i].port] == entries[i].usage
  {
    if entries != [] {
      FromListKeys(entries[..|entries| - 1]);
    }
  }

  method ReadList(existing: seq<Entry>) returns (usage: map<int, nat>)
    ensures usage == FromList(existing)
  {
    usage := map[];
    var i := 0;
    while i < |existing|
      invariant 0 <= i <= |existing| && usage == FromList(existing[..i])
    {
      usage := usage[existing[i].port := existing[i].usage];
      assert existing[..i + 1][..i] == existing[..i];
      i := i + 1;
    }
    assert existing[..i] == existing;
  }

  lemma MergeOneMore(base: map<int, nat>, some: map<int, nat>, e: Entry)
    requires e.port !in some
    ensures Merge(base, some[e.port := e.usage]) ==
      Merge(base, some)[e.port := if e.port in base then Wrap(base[e.port] + e.usage) else e.usage]
  {}

  /** What one more entry of `current` does to the merged map. */
  lemma AddNext(base: map<int, nat>, current: seq<Entry>, i: nat)
    requires Distinct(current) && i < |current|
    ensures
      var e, usage := current[i], Merge(base, FromList(current[..i]));
      && (e.port in usage <==> e.port in base) && (e.port in base ==> usage[e.port] == base[e.port])
      && Merge(base, FromList(current[..i + 1])) ==
           usage[e.port := if e.port in base then Wrap(base[e.port] + e.usage) else e.usage]
  {
    FromListKeys(current[..i]);
    MergeOneMore(base, FromList(current[..i]), current[i]);
    assert current[..i + 1][..i] == current[..i];
  }

  method AddList(base: map<int, nat>, current: seq<Entry>) returns (usage: map<int, nat>)
    requires Distinct(current)
    ensures usage == Merge(base, FromList(current))
  {
    usage := base;
    var i := 0;
    assert Merge(base, map[]) == base;
    while i < |current|
      invariant 0 <= i <= |current| && usage == Merge(base, FromList(current[..i]))
    {
      var e := current[i];
      AddNext(base, current, i);
      if e.port in usage {
        usage := usage[e.port := Wrap(usage[e.port] + e.usage)];
      } else {
        usage := usage[e.port := e.usage];
      }
      i := i + 1;
    }
    assert current[..i] == current;
  }

  lemma WrapTwice(a: nat, b: nat)
    ensures Wrap(Wrap(a) + b) == Wrap(a + b)
  {
    SameWrapped(a);
    Shift(Wrap(a), a, b);
    SameIffEqual(Wrap(a) + b, a + b);
  }

  lemma SomeMember(s: set<int>)
    ensures s == {} || exists p :: p in s
  {
    if forall p :: p !in s {
      assert s == {};
    }
  }

  class Usage {
    var store: map<int, nat>
    var total: nat

    constructor ()
      ensures store == map[] && total == 0
    {
      store, total := map[], 0;
    }

    method AddOrUpdatePort(port: int, usage: nat)
      requires usage < U64
      modifies this`store
      ensures store == Merge(old(store), map[port := usage])
    {
      if port in store {
        store := store[port := Wrap(store[port] + usage)];
      } else {
        store := store[port := usage];
      }
    }

    /** Drains the store into a list. */
    method Collect() returns (current: seq<Entry>)
      modifies this`store
      ensures store == map[] && Lists(current, old(store))
    {
      current := [];
      ghost var was := store;
      var left := store.Keys;
      while left != {}
        invariant left <= was.Keys && Distinct(current)
        invariant store == map p | p in left :: was[p]
        invariant FromList(current) == map p | p in was && p !in left :: was[p]
        decreases left
      {
        SomeMember(left);
        var port :| port in left;
        ghost var before := current;
        FromListKeys(current);
        current := current + [Entry(port, store[port])];
        assert current[..|before|] == before;
        store, left := store - {port}, left - {port};
      }
    }

    /** Steps 3 and 4: merge into a map, then list it and add it up. */
    method MergeLists(existing: seq<Entry>, current: seq<Entry>) returns (merged: seq<Entry>)
      requires Distinct(current)
      modifies this`total
      ensures Lists(merged, Merge(FromList(existing), FromList(current)))
      ensures total == Wrap(Sum(merged))
    {
      var usage := ReadList(existing);
      usage := AddList(usage, current);
      merged := ListOut(usage);
    }

    /**
     One save with nothing in between.  An undecodable file is left alone, and so are the counts; otherwise the
     counts are drained and the total replaced whether or not the file can then be opened and written.
     */
    method SaveUsageData(disk: Disk, opens: bool, writes: bool) returns (saved: Disk, merged: seq<Entry>)
      modifies this
      ensures disk == Garbled ==> saved == Garbled && store == old(store) && total == old(total)
      ensures disk != Garbled ==>
        && store == map[] && Lists(merged, Merge(OnDisk(disk), old(store))) && total == Wrap(Sum(merged))
        && saved == if !opens then disk else if !writes then Garbled else Listed(merged)
    {
      saved, merged := disk, [];
      if disk == Garbled {
        return;
      }
      var existing := Entries(disk);
      var current := Collect();
      merged := MergeLists(existing, current);
      if opens {
        saved := if writes then Listed(merged) else Garbled;
      }
    }

    method ListOut(usage: map<int, nat>) returns (merged: seq<Entry>)
      modifies this`total
      ensures Lists(merged, usage) && total == Wrap(Sum(merged))
    {
      total, merged := 0, [];
      var left := usage.Keys;
      while left != {}
        invariant left <= usage.Keys && Distinct(merged) && total == Wrap(Sum(merged))
        invariant FromList(merged) == map p | p in usage && p !in left :: usage[p]
        decreases left
      {
        SomeMember(left);
        var port :| port in left;
        ghost var before := merged;
        FromListKeys(merged);
        merged := merged + [Entry(port, usage[port])];
        assert merged[..|before|] == before;
        WrapTwice(Sum(before), usage[port]);
        total := Wrap(total + usage[port]);
        left := left - {port};
      }
    }
  }
}
