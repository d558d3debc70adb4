/** The api-server's fixed-window rate limiter: inline sweep, background sweep and a hard key cap. */
module RateLimiter {
  import opened Sets
  import opened Wrappers

  type Key = string
  type Time = nat

  const MAX_KEYS := 50_000

  datatype WindowEntry = WindowEntry(start: Time, count: nat)

  type Windows = map<Key, WindowEntry>

  datatype Config = Config(limit: nat, window: nat)

  datatype Decision = Allowed | Denied(retryAfter: nat)

  /** A scope whose limit is configured to zero has no limiter. */
  function FromConfig(limit: nat, window: nat): (r: Option<Config>)
    ensures r.None? <==> limit == 0
    ensures r.Some? ==> r.value.limit == limit && r.value.window == window
  {
    if limit > 0 then Some(Config(limit, window)) else None
  }

  /** Elapsed time, zero when the clock reading is older than the start. */
  function Since(now: Time, start: Time): nat {
    if now >= start then now - start else 0
  }

  predicate Expired(c: Config, e: WindowEntry, now: Time) {
    Since(now, e.start) >= c.window
  }

  function Purge(c: Config, m: Windows, now: Time): Windows {
    map k | k in m && !Expired(c, m[k], now) :: m[k]
  }

  /** What the entry of a key does with one more request. */
  function Hit(c: Config, e: WindowEntry, now: Time): (WindowEntry, Decision) {
    if Expired(c, e, now) then (WindowEntry(now, 1), Allowed)
    else if e.count < c.limit then (e.(count := e.count + 1), Allowed)
    else (e, Denied(Since(e.start + c.window, now)))
  }

  function EntryOf(m: Windows, key: Key, now: Time): WindowEntry {
    if key in m then m[key] else WindowEntry(now, 0)
  }

  /** A limiter that never evicts and has no cap. */
  function IdealCheck(c: Config, m: Windows, key: Key, now: Time): (Windows, Decision) {
    var (e, d) := Hit(c, EntryOf(m, key, now), now);
    (m[key := e], d)
  }

  /** The map after the cap guard of a check. */
  function Guarded(c: Config, m: Windows, key: Key, now: Time): Windows {
    if key !in m && |m| >= MAX_KEYS then Purge(c, m, now) else m
  }

  /** A new key meets a full map even after the sweep; it is admitted and not recorded. */
  predicate FailsOpen(c: Config, m: Windows, key: Key, now: Time) {
    key !in m && |m| >= MAX_KEYS && |Purge(c, m, now)| >= MAX_KEYS
  }

  function Decide(c: Config, m: Windows, key: Key, now: Time): (Windows, Decision) {
    if FailsOpen(c, m, key, now) then (Guarded(c, m, key, now), Allowed)
    else IdealCheck(c, Guarded(c, m, key, now), key, now)
  }

  /** The key has a window that is not over; a window of length zero is over at once. */
  predicate Running(c: Config, m: Windows, key: Key, now: Time) {
    key in m && c.window > 0 && now < m[key].start + c.window
  }

  function RunningKeys(c: Config, m: Windows, now: Time): set<Key> {
    set k | k in m && Running(c, m, k, now)
  }

  lemma PurgeLeavesRunning(c: Config, m: Windows, now: Time)
    ensures Purge(c, m, now).Keys == RunningKeys(c, m, now)
    ensures |Purge(c, m, now)| == |RunningKeys(c, m, now)|
  {
    assert |Purge(c, m, now)| == |Purge(c, m, now).Keys|;
  }

  /**
   A request is rejected if and only if the window of its key is running and used up. It is let through unrecorded
   if and only if its key is new and the map is full of running windows. What is recorded is counted in the running
   window or opens a new one. Other keys keep their entries, except that a new key at a full map sweeps out the
   windows that are over.
   */
  ghost predicate ChecksRightly(c: Config, m: Windows, m': Windows, key: Key, now: Time, d: Decision) {
    && (key !in m' <==> key !in m && |RunningKeys(c, m, now)| >= 50_000)
    && (key !in m' ==> d == Allowed)
    && (c.limit >= 1 ==>
          && (d.Denied? <==> Running(c, m, key, now) && m[key].count >= c.limit)
          && (key in m' ==> m'[key] == if !Running(c, m, key, now) then WindowEntry(now, 1)
                                       else m[key].(count := m[key].count + if d.Allowed? then 1 else 0)))
    && (forall k :: k in m' && k != key ==> k in m && m'[k] == m[k])
    && (forall k :: k in m && k !in m' ==> !Running(c, m, k, now) && key !in m && |m| >= 50_000)
  }

  lemma DecidesRightly(c: Config, m: Windows, key: Key, now: Time)
    ensures ChecksRightly(c, m, Decide(c, m, key, now).0, key, now, Decide(c, m, key, now).1)
  {
    PurgeLeavesRunning(c, m, now);
    if |m| < MAX_KEYS {
      SubsetSize(RunningKeys(c, m, now), m.Keys);
    }
  }

  class Limiter {
    const config: Config
    var windows: Windows

    constructor (config: Config)
      ensures this.config == config && windows == map[]
    {
      this.config := config;
      windows := map[];
    }

    method Check(key: Key, now: Time) returns (d: Decision)
      modifies this
      ensures (windows, d) == Decide(config, old(windows), key, now)
      ensures ChecksRightly(config, old(windows), windows, key, now, d)
    {
      hide ChecksRightly;
      DecidesRightly(config, windows, key, now);
      if key !in windows && |windows| >= MAX_KEYS {
        PurgeExpired(now);
        if |windows| >= MAX_KEYS {
          return Allowed;
        }
      }
      ghost var guarded := windows;
      assert !FailsOpen(config, old(windows), key, now) && guarded == Guarded(config, old(windows), key, now);
      if key !in windows {
        windows := windows[key := WindowEntry(now, 0)];
      }
      var entry := windows[key];
      if Since(now, entry.start) >= config.window {
        windows := windows[key := WindowEntry(now, 1)];
        d := Allowed;
      } else if entry.count < config.limit {
        windows := windows[key := entry.(count := entry.count + 1)];
        d := Allowed;
      } else {
        var windowEnd := entry.start + config.window;
        d := Denied(Since(windowEnd, now));
      }
      assert windows == guarded[key := windows[key]];
    }

    /** Exactly the running windows stay, as they are. */
    method PurgeExpired(now: Time)
      modifies this
      ensures windows == Purge(config, old(windows), now)
      ensures forall k :: k in windows <==> Running(config, old(windows), k, now)
      ensures forall k :: k in windows ==> windows[k] == old(windows)[k]
    {
      windows := map k | k in windows && Since(now, windows[k].start) < config.window :: windows[k];
    }
  }

  // ---------------------------------------------------------------------------------------------
  // Runs
  // ---------------------------------------------------------------------------------------------

  /** A check of some key, or a sweep by the background task. */
  datatype Op = CheckKey(key: Key, now: Time) | Sweep(now: Time)

  predicate Ordered(ops: seq<Op>) {
    forall i, j :: 0 <= i < j < |ops| ==> ops[i].now <= ops[j].now
  }

  function Apply(c: Config, m: Windows, op: Op): Windows {
    match op
    case CheckKey(key, now) => Decide(c, m, key, now).0
    case Sweep(now) => Purge(c, m, now)
  }

  function After(c: Config, ops: seq<Op>): Windows {
    if ops == [] then map[] else Apply(c, After(c, ops[..|ops| - 1]), ops[|ops| - 1])
  }

  function IdealAfter(c: Config, ops: seq<Op>): Windows {
    if ops == [] then map[]
    else
      var m := IdealAfter(c, ops[..|ops| - 1]);
      match ops[|ops| - 1]
      case CheckKey(key, now) => IdealCheck(c, m, key, now).0
      case Sweep(_) => m
  }

  function DecisionAt(c: Config, ops: seq<Op>, i: nat): Decision
    requires i < |ops| && ops[i].CheckKey?
  {
    Decide(c, After(c, ops[..i]), ops[i].key, ops[i].now).1
  }

  function IdealDecisionAt(c: Config, ops: seq<Op>, i: nat): Decision
    requires i < |ops| && ops[i].CheckKey?
  {
    IdealCheck(c, IdealAfter(c, ops[..i]), ops[i].key, ops[i].now).1
  }

  predicate NeverFailsOpen(c: Config, ops: seq<Op>) {
    forall i :: 0 <= i < |ops| && ops[i].CheckKey? ==> !FailsOpen(c, After(c, ops[..i]), ops[i].key, ops[i].now)
  }

  // ---------------------------------------------------------------------------------------------
  // Refinement of the ideal limiter
  // ---------------------------------------------------------------------------------------------

  /** The real map is the ideal one without some entries that have expired by the given time. */
  predicate Refines(c: Config, m: Windows, ideal: Windows, now: Time) {
    && (forall k :: k in m ==> k in ideal && ideal[k] == m[k])
    && (forall k :: k in ideal && k !in m ==> Expired(c, ideal[k], now))
  }

  lemma StepRefines(c: Config, m: Windows, ideal: Windows, op: Op, before: Time)
    requires c.limit >= 1 && before <= op.now && Refines(c, m, ideal, before)
    requires op.CheckKey? ==> !FailsOpen(c, m, op.key, op.now)
    ensures op.CheckKey? ==> Decide(c, m, op.key, op.now).1 == IdealCheck(c, ideal, op.key, op.now).1
    ensures Refines(c, Apply(c, m, op), if op.CheckKey? then IdealCheck(c, ideal, op.key, op.now).0 else ideal, op.now)
  {
  }

  lemma {:induction false} RunRefines(c: Config, ops: seq<Op>)
    requires c.limit >= 1 && Ordered(ops) && NeverFailsOpen(c, ops)
    ensures Refines(c, After(c, ops), IdealAfter(c, ops), if ops == [] then 0 else ops[|ops| - 1].now)
  {
    if ops != [] {
      var init := ops[..|ops| - 1];
      assert forall i :: 0 <= i < |init| ==> init[..i] == ops[..i];
      RunRefines(c, init);
      StepRefines(c, After(c, init), IdealAfter(c, init), ops[|ops| - 1],
                  if init == [] then 0 else init[|init| - 1].now);
    }
  }

  /** Sweeps are invisible: while no new key meets a full map, every decision is the ideal one. */
  lemma SweepsAreInvisible(c: Config, ops: seq<Op>, i: nat)
    requires c.limit >= 1 && Ordered(ops) && NeverFailsOpen(c, ops)
    requires i < |ops| && ops[i].CheckKey?
    ensures DecisionAt(c, ops, i) == IdealDecisionAt(c, ops, i)
  {
    hide After, IdealAfter, Decide, IdealCheck, Apply, FailsOpen, Refines;
    var init := ops[..i];
    assert forall j :: 0 <= j < i ==> init[..j] == ops[..j];
    RunRefines(c, init);
    StepRefines(c, After(c, init), IdealAfter(c, init), ops[i], if init == [] then 0 else init[i - 1].now);
  }

  /** Why a scope with limit zero gets no limiter: there a sweep changes what is decided. */
  lemma LimitZeroWouldShowSweeps()
    ensures var c := Config(0, 1);
            var ops := [CheckKey("k", 0), Sweep(1), CheckKey("k", 1)];
            Ordered(ops) && NeverFailsOpen(c, ops) && DecisionAt(c, ops, 2) != IdealDecisionAt(c, ops, 2)
  {
    var c := Config(0, 1);
    var ops := [CheckKey("k", 0), Sweep(1), CheckKey("k", 1)];
    assert ops[..1] == [CheckKey("k", 0)] && ops[..2] == [CheckKey("k", 0), Sweep(1)] && ops[..0] == [];
    assert ops[..2][..1] == ops[..1] && ops[..1][..0] == [];
    assert After(c, ops[..1]) == map["k" := WindowEntry(0, 0)];
    assert After(c, ops[..2]) == map[];
    assert IdealAfter(c, ops[..1]) == map["k" := WindowEntry(0, 0)];
    assert IdealAfter(c, ops[..2]) == map["k" := WindowEntry(0, 0)];
  }

  // ---------------------------------------------------------------------------------------------
  // Burst bound
  // ---------------------------------------------------------------------------------------------

  /** One counted admission: when it happened and when the window it was counted in started. */
  datatype Admission = Admission(at: Time, start: Time)

  /** The counted admissions of a key in order; admissions that fail open are not counted. */
  function Admissions(c: Config, ops: seq<Op>, key: Key): seq<Admission> {
    if ops == [] then []
    else
      var init := ops[..|ops| - 1];
      var op := ops[|ops| - 1];
      var m := After(c, init);
      if Counts(c, m, op, key) then Admissions(c, init, key) + [Admission(op.now, Apply(c, m, op)[key].start)]
      else Admissions(c, init, key)
  }

  function CountStart(log: seq<Admission>, start: Time): nat {
    if log == [] then 0
    else CountStart(log[..|log| - 1], start) + if log[|log| - 1].start == start then 1 else 0
  }

  predicate Within(a: Admission, from: Time, until: Time) {
    from <= a.at < until
  }

  function CountIn(log: seq<Admission>, from: Time, until: Time): nat {
    if log == [] then 0
    else CountIn(log[..|log| - 1], from, until) + if Within(log[|log| - 1], from, until) then 1 else 0
  }

  /** Admissions fall into their window; windows of a key are in order and a full length apart. */
  predicate WellSpaced(c: Config, log: seq<Admission>) {
    && (forall i :: 0 <= i < |log| ==> log[i].start <= log[i].at < log[i].start + c.window)
    && (forall i, j :: 0 <= i < j < |log| ==>
          log[i].at <= log[j].at && (log[i].start == log[j].start || log[i].start + c.window <= log[j].start))
  }

  ghost predicate WithinLimit(c: Config, log: seq<Admission>) {
    forall s :: CountStart(log, s) <= c.limit
  }

  /** Every window was opened by an admission at its very start. */
  ghost predicate Opened(log: seq<Admission>) {
    forall i :: 0 <= i < |log| ==> HasOpening(log, log[i].start)
  }

  ghost predicate HasOpening(log: seq<Admission>, start: Time) {
    exists j :: 0 <= j < |log| && log[j].at == log[j].start == start
  }

  /** How the current map remembers a key's last window. */
  predicate Remembers(c: Config, m: Windows, key: Key, log: seq<Admission>, now: Time) {
    if key in m then
      && m[key].start <= now && 1 <= m[key].count == CountStart(log, m[key].start)
      && Precedes(c, log, m[key].start)
    else
      forall i :: 0 <= i < |log| ==> log[i].start + c.window <= now
  }

  lemma {:induction false} CountStartZero(log: seq<Admission>, start: Time)
    requires forall i :: 0 <= i < |log| ==> log[i].start != start
    ensures CountStart(log, start) == 0
  {
    if log != [] {
      CountStartZero(log[..|log| - 1], start);
    }
  }

  lemma CountStartSnoc(log: seq<Admission>, a: Admission, start: Time)
    ensures CountStart(log + [a], start) == CountStart(log, start) + if a.start == start then 1 else 0
  {
    assert (log + [a])[..|log|] == log;
  }

  ghost predicate Sound(c: Config, m: Windows, key: Key, log: seq<Admission>, now: Time) {
    && WellSpaced(c, log) && WithinLimit(c, log) && Opened(log) && Remembers(c, m, key, log, now)
    && forall i :: 0 <= i < |log| ==> log[i].at <= now
  }

  /** Whether a step on the map counts an admission of the key. */
  predicate Counts(c: Config, m: Windows, op: Op, key: Key) {
    op.CheckKey? && op.key == key && !FailsOpen(c, m, key, op.now) && Decide(c, m, key, op.now).1 == Allowed
  }

  lemma UncountedStep(c: Config, m: Windows, key: Key, log: seq<Admission>, before: Time, op: Op)
    requires c.limit >= 1 && before <= op.now && Sound(c, m, key, log, before) && !Counts(c, m, op, key)
    ensures Sound(c, Apply(c, m, op), key, log, op.now)
  {
    hide WithinLimit, Opened, WellSpaced;
    var m' := Apply(c, m, op);
    assert key in m' ==> key in m && m'[key] == m[key];
    assert key in m && key !in m' ==> Expired(c, m[key], op.now);
  }

  lemma OpenedSnoc(log: seq<Admission>, a: Admission)
    requires Opened(log) && (a.at == a.start || CountStart(log, a.start) > 0)
    ensures Opened(log + [a])
  {
    var log' := log + [a];
    assert log'[|log|] == a;
    forall i | 0 <= i < |log'|
      ensures HasOpening(log', log'[i].start)
    {
      if i < |log| || a.at != a.start {
        if i == |log| && forall k :: 0 <= k < |log| ==> log[k].start != a.start {
          CountStartZero(log, a.start);
        }
        assert HasOpening(log, log'[i].start);
        var j :| 0 <= j < |log| && log[j].at == log[j].start == log'[i].start;
        assert log'[j] == log[j];
      }
    }
  }

  lemma WithinLimitSnoc(c: Config, log: seq<Admission>, a: Admission)
    requires WithinLimit(c, log) && CountStart(log, a.start) < c.limit
    ensures WithinLimit(c, log + [a])
  {
    forall s ensures CountStart(log + [a], s) <= c.limit {
      CountStartSnoc(log, a, s);
    }
  }

  /** Every window of the log is the given one or at least a full length earlier. */
  predicate Precedes(c: Config, log: seq<Admission>, start: Time) {
    forall i :: 0 <= i < |log| ==> log[i].start == start || log[i].start + c.window <= start
  }

  lemma WellSpacedSnoc(c: Config, log: seq<Admission>, a: Admission)
    requires WellSpaced(c, log) && Precedes(c, log, a.start) && a.start <= a.at < a.start + c.window
    requires forall i :: 0 <= i < |log| ==> log[i].at <= a.at
    ensures WellSpaced(c, log + [a]) && Precedes(c, log + [a], a.start)
  {
    var log' := log + [a];
    forall i, j | 0 <= i < j < |log'|
      ensures log'[i].at <= log'[j].at
      ensures log'[i].start == log'[j].start || log'[i].start + c.window <= log'[j].start
    {
      assert log'[i] == log[i];
    }
  }

  lemma SoundSnoc(c: Config, m: Windows, key: Key, log: seq<Admission>, a: Admission)
    requires WellSpaced(c, log) && WithinLimit(c, log) && Opened(log) && Precedes(c, log, a.start)
    requires a.start <= a.at < a.start + c.window && forall i :: 0 <= i < |log| ==> log[i].at <= a.at
    requires CountStart(log, a.start) < c.limit && (a.at == a.start || CountStart(log, a.start) > 0)
    requires key in m && m[key] == WindowEntry(a.start, CountStart(log, a.start) + 1)
    ensures Sound(c, m, key, log + [a], a.at)
  {
    hide WellSpaced, WithinLimit, Opened, Precedes, CountStart;
    WellSpacedSnoc(c, log, a);
    WithinLimitSnoc(c, log, a);
    OpenedSnoc(log, a);
    CountStartSnoc(log, a, a.start);
  }

  lemma CountedEntry(c: Config, m: Windows, op: Op, key: Key)
    requires c.limit >= 1 && Counts(c, m, op, key)
    ensures var m' := Apply(c, m, op);
            && key in m'
            && if key !in m || Expired(c, m[key], op.now) then m'[key] == WindowEntry(op.now, 1)
               else m'[key] == WindowEntry(m[key].start, m[key].count + 1) && m[key].count < c.limit
  {
  }

  lemma CountedStep(c: Config, m: Windows, key: Key, log: seq<Admission>, before: Time, op: Op)
    requires c.limit >= 1 && c.window > 0 && before <= op.now
    requires Sound(c, m, key, log, before) && Counts(c, m, op, key)
    ensures Sound(c, Apply(c, m, op), key, log + [Admission(op.now, Apply(c, m, op)[key].start)], op.now)
  {
    CountedEntry(c, m, op, key);
    hide Apply, Counts, WellSpaced, WithinLimit, Opened;
    var m' := Apply(c, m, op);
    var a := Admission(op.now, m'[key].start);
    if key !in m || Expired(c, m[key], op.now) {
      assert forall i :: 0 <= i < |log| ==> log[i].start + c.window <= op.now;
      CountStartZero(log, op.now);
    }
    SoundSnoc(c, m', key, log, a);
  }

  lemma {:induction false} AdmissionsAreSound(c: Config, ops: seq<Op>, key: Key)
    requires c.limit >= 1 && c.window > 0 && Ordered(ops)
    ensures Sound(c, After(c, ops), key, Admissions(c, ops, key), if ops == [] then 0 else ops[|ops| - 1].now)
  {
    if ops != [] {
      hide Sound, Counts, Apply;
      var init := ops[..|ops| - 1];
      var op := ops[|ops| - 1];
      var before := if init == [] then 0 else init[|init| - 1].now;
      assert before <= op.now;
      AdmissionsAreSound(c, init, key);
      hide Ordered;
      if Counts(c, After(c, init), op, key) {
        CountedStep(c, After(c, init), key, Admissions(c, init, key), before, op);
      } else {
        UncountedStep(c, After(c, init), key, Admissions(c, init, key), before, op);
      }
    }
  }

  lemma {:induction false} CountInTwoWindows(log: seq<Admission>, from: Time, until: Time, s1: Time, s2: Time)
    requires forall i :: 0 <= i < |log| && Within(log[i], from, until) ==> log[i].start == s1 || log[i].start == s2
    ensures CountIn(log, from, until) <= CountStart(log, s1) + CountStart(log, s2)
  {
    if log != [] {
      CountInTwoWindows(log[..|log| - 1], from, until, s1, s2);
    }
  }

  lemma {:induction false} OneWindow(log: seq<Admission>, from: Time, until: Time, start: Time)
    requires forall i :: 0 <= i < |log| && Within(log[i], from, until) ==> log[i].start == start
    ensures CountIn(log, from, until) <= CountStart(log, start)
  {
    if log != [] {
      OneWindow(log[..|log| - 1], from, until, start);
    }
  }

  /** Of three admissions inside one window length, two were counted in the same window. */
  lemma NoThreeWindows(c: Config, log: seq<Admission>, from: Time, i: nat, j: nat, k: nat)
    requires c.window > 0 && WellSpaced(c, log) && i < |log| && j < |log| && k < |log|
    requires Within(log[i], from, from + c.window) && Within(log[j], from, from + c.window)
    requires Within(log[k], from, from + c.window)
    ensures log[i].start == log[j].start || log[j].start == log[k].start || log[i].start == log[k].start
  {
  }

  /** An admission outside the interval makes the count inside one smaller than its windows hold. */
  lemma {:induction false} OneIsOutside(log: seq<Admission>, from: Time, until: Time, s1: Time, s2: Time, j: nat)
    requires s1 != s2 && j < |log| && !Within(log[j], from, until) && log[j].start == s1
    requires forall i :: 0 <= i < |log| && Within(log[i], from, until) ==> log[i].start == s1 || log[i].start == s2
    ensures CountIn(log, from, until) + 1 <= CountStart(log, s1) + CountStart(log, s2)
  {
    var init := log[..|log| - 1];
    if j == |log| - 1 {
      CountInTwoWindows(init, from, until, s1, s2);
    } else {
      OneIsOutside(init, from, until, s1, s2, j);
    }
  }

  lemma WindowsApart(c: Config, log: seq<Admission>, i: nat, j: nat)
    requires WellSpaced(c, log) && i < |log| && j < |log| && log[i].start < log[j].start
    ensures log[i].start + c.window <= log[j].start <= log[j].at && log[i].at < log[i].start + c.window
  {
    assert i < j;
  }

  lemma OpeningOf(log: seq<Admission>, i: nat) returns (j: nat)
    requires Opened(log) && i < |log|
    ensures j < |log| && log[j].at == log[j].start == log[i].start
  {
    assert HasOpening(log, log[i].start);
    var k :| 0 <= k < |log| && log[k].at == log[k].start == log[i].start;
    j := k;
  }

  /** Two windows reach into the interval: the earlier one was opened before it. */
  lemma BurstOfTwoWindows(c: Config, log: seq<Admission>, from: Time, i: nat, j: nat)
    requires c.window > 0 && WellSpaced(c, log) && WithinLimit(c, log) && Opened(log)
    requires i < |log| && j < |log| && log[i].start < log[j].start
    requires Within(log[i], from, from + c.window) && Within(log[j], from, from + c.window)
    ensures CountIn(log, from, from + c.window) <= 2 * c.limit - 1
  {
    hide WellSpaced, Opened, CountIn, CountStart;
    var s1, s2 := log[i].start, log[j].start;
    WindowsApart(c, log, i, j);
    forall k | 0 <= k < |log| && Within(log[k], from, from + c.window)
      ensures log[k].start == s1 || log[k].start == s2
    {
      NoThreeWindows(c, log, from, i, j, k);
    }
    var opening := OpeningOf(log, i);
    assert CountStart(log, s1) <= c.limit && CountStart(log, s2) <= c.limit;
    OneIsOutside(log, from, from + c.window, s1, s2, opening);
  }

  lemma LogBound(c: Config, log: seq<Admission>, from: Time)
    requires c.limit >= 1 && c.window > 0 && WellSpaced(c, log) && WithinLimit(c, log) && Opened(log)
    ensures CountIn(log, from, from + c.window) <= 2 * c.limit - 1
  {
    hide WellSpaced, Opened;
    var until := from + c.window;
    if i: nat, j: nat :| i < |log| && j < |log| && Within(log[i], from, until) && Within(log[j], from, until) &&
                         log[i].start < log[j].start {
      BurstOfTwoWindows(c, log, from, i, j);
    } else if i :| 0 <= i < |log| && Within(log[i], from, until) {
      OneWindow(log, from, until, log[i].start);
    } else {
      OneWindow(log, from, until, 0);
    }
  }

  /** Burst bound: an interval of one window length sees at most one admission less than twice the limit. */
  lemma BurstBound(c: Config, ops: seq<Op>, key: Key, from: Time)
    requires c.limit >= 1 && c.window > 0 && Ordered(ops)
    ensures CountIn(Admissions(c, ops, key), from, from + c.window) <= 2 * c.limit - 1
  {
    var log := Admissions(c, ops, key);
    AdmissionsAreSound(c, ops, key);
    hide Admissions, After;
    LogBound(c, log, from);
  }

  function Repeat(key: Key, now: Time, times: nat): (ops: seq<Op>)
    ensures |ops| == times && forall i :: 0 <= i < times ==> ops[i] == CheckKey(key, now)
  {
    if times == 0 then [] else Repeat(key, now, times - 1) + [CheckKey(key, now)]
  }

  lemma OneMore(c: Config, ops: seq<Op>, op: Op, from: Time, until: Time)
    requires op.CheckKey? && Counts(c, After(c, ops), op, op.key)
    ensures After(c, ops + [op]) == Decide(c, After(c, ops), op.key, op.now).0
    ensures CountIn(Admissions(c, ops + [op], op.key), from, until)
         == CountIn(Admissions(c, ops, op.key), from, until) + if from <= op.now < until then 1 else 0
  {
    var log := Admissions(c, ops, op.key);
    var more := ops + [op];
    assert more[..|more| - 1] == ops;
    var log' := Admissions(c, more, op.key);
    assert log'[..|log'| - 1] == log;
  }

  function One(key: Key, e: WindowEntry): Windows {
    map[key := e]
  }

  lemma RoomLeft(c: Config, key: Key, e: WindowEntry, now: Time)
    requires e.start <= now < e.start + c.window && e.count < c.limit
    ensures Counts(c, One(key, e), CheckKey(key, now), key)
    ensures Decide(c, One(key, e), key, now).0 == One(key, WindowEntry(e.start, e.count + 1))
  {
  }

  /** A map that is empty or holds only a window of the key that is over. */
  ghost predicate Stale(c: Config, m: Windows, key: Key, now: Time) {
    m == map[] || (m.Keys == {key} && m[key].start + c.window <= now)
  }

  lemma WindowOver(c: Config, key: Key, m: Windows, now: Time)
    requires c.limit >= 1 && Stale(c, m, key, now)
    ensures Counts(c, m, CheckKey(key, now), key)
    ensures Decide(c, m, key, now).0 == One(key, WindowEntry(now, 1))
  {
    assert |m.Keys| <= |{key}|;
  }

  /** Checks inside a window that has room for all of them are all counted. */
  lemma {:induction false} Fill(c: Config, ops: seq<Op>, key: Key, e: WindowEntry, now: Time, times: nat, from: Time,
                                until: Time)
    requires After(c, ops) == One(key, e) && e.start <= now < e.start + c.window && e.count + times <= c.limit
    requires from <= now < until
    ensures After(c, ops + Repeat(key, now, times)) == One(key, WindowEntry(e.start, e.count + times))
    ensures CountIn(Admissions(c, ops + Repeat(key, now, times), key), from, until)
         == CountIn(Admissions(c, ops, key), from, until) + times
  {
    hide Admissions, CountIn, After, Counts, Decide, One;
    if times == 0 {
      assert ops + Repeat(key, now, times) == ops;
    } else {
      Fill(c, ops, key, e, now, times - 1, from, until);
      var shorter := ops + Repeat(key, now, times - 1);
      assert ops + Repeat(key, now, times) == shorter + [CheckKey(key, now)];
      RoomLeft(c, key, WindowEntry(e.start, e.count + times - 1), now);
      OneMore(c, shorter, CheckKey(key, now), from, until);
    }
  }

  /** The run that meets the burst bound: fill one window at its end and the next one at its start. */
  function Burst(c: Config, key: Key): seq<Op>
    requires c.limit >= 1 && c.window >= 2
  {
    [CheckKey(key, 0)] + Repeat(key, c.window - 1, c.limit - 1) + [CheckKey(key, c.window)] +
    Repeat(key, c.window, c.limit - 1)
  }

  lemma BurstIsOrdered(c: Config, key: Key)
    requires c.limit >= 1 && c.window >= 2
    ensures Ordered(Burst(c, key))
  {
    var ops, n := Burst(c, key), c.limit;
    assert forall i :: 0 <= i < |ops| ==> ops[i].now == if i == 0 then 0 else if i < n then c.window - 1 else c.window;
  }

  /** One check that opens a window, then checks at a later time until the window is full. */
  lemma OpenAndFill(c: Config, ops: seq<Op>, key: Key, start: Time, now: Time, from: Time, until: Time)
    requires c.limit >= 1 && start <= now < start + c.window && from <= now < until
    requires Stale(c, After(c, ops), key, start)
    ensures var ops' := ops + [CheckKey(key, start)] + Repeat(key, now, c.limit - 1);
            && After(c, ops') == One(key, WindowEntry(start, c.limit))
            && CountIn(Admissions(c, ops', key), from, until)
            == CountIn(Admissions(c, ops, key), from, until) + (if from <= start then 1 else 0) + c.limit - 1
  {
    hide Admissions, CountIn, After, Counts, Decide, One, Repeat, Stale;
    WindowOver(c, key, After(c, ops), start);
    OneMore(c, ops, CheckKey(key, start), from, until);
    var begun := ops + [CheckKey(key, start)];
    assert After(c, begun) == One(key, WindowEntry(start, 1));
    Fill(c, ops + [CheckKey(key, start)], key, WindowEntry(start, 1), now, c.limit - 1, from, until);
  }

  lemma StaleWindows(c: Config, key: Key, from: Time, until: Time)
    ensures Stale(c, After(c, []), key, 0) && CountIn(Admissions(c, [], key), from, until) == 0
    ensures Stale(c, One(key, WindowEntry(0, c.limit)), key, c.window)
  {
  }

  /** The burst bound is exact for every limit and every window longer than one tick. */
  lemma BurstBoundIsMet(c: Config, key: Key)
    requires c.limit >= 1 && c.window >= 2
    ensures Ordered(Burst(c, key))
    ensures CountIn(Admissions(c, Burst(c, key), key), c.window - 1, c.window - 1 + c.window) == 2 * c.limit - 1
  {
    hide Admissions, CountIn, After, Ordered, Repeat, Stale, One;
    var from, until := c.window - 1, c.window - 1 + c.window;
    BurstIsOrdered(c, key);
    StaleWindows(c, key, from, until);
    OpenAndFill(c, [], key, 0, from, from, until);
    var ops := [] + [CheckKey(key, 0)] + Repeat(key, from, c.limit - 1);
    OpenAndFill(c, ops, key, c.window, c.window, from, until);
    assert Burst(c, key) == ops + [CheckKey(key, c.window)] + Repeat(key, c.window, c.limit - 1);
  }

  // ---------------------------------------------------------------------------------------------
  // Retry exactness
  // ---------------------------------------------------------------------------------------------

  lemma {:induction false} StartsArePast(c: Config, ops: seq<Op>)
    requires ops != [] && Ordered(ops)
    ensures forall k :: k in After(c, ops) ==> After(c, ops)[k].start <= ops[|ops| - 1].now
  {
    var init := ops[..|ops| - 1];
    if init != [] {
      StartsArePast(c, init);
    }
  }

  function Deadline(c: Config, ops: seq<Op>, i: nat): Time
    requires i < |ops| && ops[i].CheckKey? && DecisionAt(c, ops, i).Denied?
  {
    ops[i].now + DecisionAt(c, ops, i).retryAfter
  }

  /** No check of the key between a rejection and a later step happens at or after the deadline. */
  predicate NoneSince(c: Config, ops: seq<Op>, i: nat, j: nat)
    requires i < j <= |ops| && ops[i].CheckKey? && DecisionAt(c, ops, i).Denied?
  {
    forall k :: i < k < j && ops[k].CheckKey? && ops[k].key == ops[i].key ==> ops[k].now < Deadline(c, ops, i)
  }

  lemma RejectionIsBounded(c: Config, ops: seq<Op>, i: nat)
    requires c.limit >= 1 && Ordered(ops) && i < |ops| && ops[i].CheckKey? && DecisionAt(c, ops, i).Denied?
    ensures 0 < DecisionAt(c, ops, i).retryAfter <= c.window
    ensures var m := After(c, ops[..i]);
            ops[i].key in m && m[ops[i].key].start + c.window == Deadline(c, ops, i) && m[ops[i].key].count >= c.limit
  {
    if i > 0 {
      StartsArePast(c, ops[..i]);
    }
  }

  lemma StaysBlockedStep(c: Config, m: Windows, op: Op, key: Key, e: WindowEntry)
    requires c.limit >= 1 && c.window > 0 && e.count >= c.limit && (key in m ==> m[key] == e)
    requires op.CheckKey? && op.key == key ==> op.now < e.start + c.window && key in m
    ensures key in Apply(c, m, op) ==> key in m && Apply(c, m, op)[key] == e
    ensures key in m && key !in Apply(c, m, op) ==> e.start + c.window <= op.now
  {
  }

  lemma RejectionKeepsEntry(c: Config, m: Windows, key: Key, now: Time)
    requires Decide(c, m, key, now).1.Denied? && key in m
    ensures key in Decide(c, m, key, now).0 && Decide(c, m, key, now).0[key] == m[key]
  {
  }

  lemma AfterOne(c: Config, ops: seq<Op>, j: nat)
    requires 0 < j <= |ops|
    ensures After(c, ops[..j]) == Apply(c, After(c, ops[..j - 1]), ops[j - 1])
  {
    hide Apply;
    assert ops[..j][..j - 1] == ops[..j - 1];
  }

  /** Until it is checked again after the deadline, the key is either as it was or swept after the deadline. */
  lemma {:induction false} StaysBlocked(c: Config, ops: seq<Op>, i: nat, j: nat)
    requires c.limit >= 1 && Ordered(ops) && i < j <= |ops| && ops[i].CheckKey? && DecisionAt(c, ops, i).Denied?
    requires NoneSince(c, ops, i, j)
    ensures var m, key := After(c, ops[..j]), ops[i].key;
            if key in m then key in After(c, ops[..i]) && m[key] == After(c, ops[..i])[key]
            else Deadline(c, ops, i) <= ops[j - 1].now
    decreases j
  {
    hide After, Decide;
    RejectionIsBounded(c, ops, i);
    var m, key := After(c, ops[..i]), ops[i].key;
    AfterOne(c, ops, j);
    if j == i + 1 {
      RejectionKeepsEntry(c, m, key, ops[i].now);
    } else {
      StaysBlocked(c, ops, i, j - 1);
      StaysBlockedStep(c, After(c, ops[..j - 1]), ops[j - 1], key, m[key]);
    }
  }

  /** Checks before the deadline are rejected with the time left, the first one after it is admitted. */
  lemma RetryAfterIsExact(c: Config, ops: seq<Op>, i: nat, j: nat)
    requires c.limit >= 1 && Ordered(ops) && i < j < |ops| && ops[i].CheckKey? && DecisionAt(c, ops, i).Denied?
    requires ops[j].CheckKey? && ops[j].key == ops[i].key
    ensures ops[j].now < Deadline(c, ops, i) ==>
              DecisionAt(c, ops, j) == Denied(Deadline(c, ops, i) - ops[j].now)
    ensures ops[j].now >= Deadline(c, ops, i) && NoneSince(c, ops, i, j) ==>
              DecisionAt(c, ops, j) == Allowed
  {
    RejectionIsBounded(c, ops, i);
    if NoneSince(c, ops, i, j) {
      StaysBlocked(c, ops, i, j);
    }
  }

  // ---------------------------------------------------------------------------------------------
  // Key cap
  // ---------------------------------------------------------------------------------------------

  lemma PurgeShrinks(c: Config, m: Windows, now: Time)
    ensures Purge(c, m, now).Keys <= m.Keys && |Purge(c, m, now)| <= |m|
  {
    SubsetSize(Purge(c, m, now).Keys, m.Keys);
  }

  /** One caller at a time: the map never holds more than the cap. */
  lemma {:induction false} CapHolds(c: Config, ops: seq<Op>)
    ensures |After(c, ops)| <= MAX_KEYS
  {
    if ops != [] {
      var m := After(c, ops[..|ops| - 1]);
      var op := ops[|ops| - 1];
      CapHolds(c, ops[..|ops| - 1]);
      PurgeShrinks(c, m, op.now);
      if op.CheckKey? && !FailsOpen(c, m, op.key, op.now) {
        var guarded := Guarded(c, m, op.key, op.now);
        assert After(c, ops).Keys == guarded.Keys + {op.key};
        assert op.key in guarded ==> guarded.Keys + {op.key} == guarded.Keys;
      }
    }
  }

  /** Where a caller stands between two shared-map operations of a check. */
  datatype Phase =
    | Idle
    | Absent(key: Key, now: Time)
    | Full(key: Key, now: Time)
    | Swept(key: Key, now: Time)
    | Cleared(key: Key, now: Time)

  datatype Pool = Pool(windows: Windows, callers: seq<Phase>)

  datatype Move = Lookup(t: nat, key: Key, now: Time) | Advance(t: nat) | Background(now: Time)

  predicate CanMove(p: Pool, move: Move) {
    match move
    case Lookup(t, _, _) => t < |p.callers| && p.callers[t].Idle?
    case Advance(t) => t < |p.callers| && !p.callers[t].Idle?
    case Background(_) => true
  }

  /** One shared-map operation of one caller, or a background sweep. */
  function Moved(c: Config, p: Pool, move: Move): Pool
    requires CanMove(p, move)
  {
    match move
    case Lookup(t, key, now) =>
      p.(callers := p.callers[t := if key in p.windows then Cleared(key, now) else Absent(key, now)])
    case Background(now) => p.(windows := Purge(c, p.windows, now))
    case Advance(t) =>
      match p.callers[t]
      case Absent(key, now) =>
        p.(callers := p.callers[t := if |p.windows| >= MAX_KEYS then Full(key, now) else Cleared(key, now)])
      case Full(key, now) => Pool(Purge(c, p.windows, now), p.callers[t := Swept(key, now)])
      case Swept(key, now) =>
        p.(callers := p.callers[t := if |p.windows| >= MAX_KEYS then Idle else Cleared(key, now)])
      case Cleared(key, now) => Pool(IdealCheck(c, p.windows, key, now).0, p.callers[t := Idle])
  }

  function Rank(phase: Phase): nat {
    match phase
    case Idle => 0
    case Cleared(_, _) => 1
    case Swept(_, _) => 2
    case Full(_, _) => 3
    case Absent(_, _) => 4
  }

  /** A caller that is not interrupted carries on to the end of its check. */
  function Finish(c: Config, p: Pool, t: nat): Pool
    requires t < |p.callers|
    decreases Rank(p.callers[t])
  {
    if p.callers[t].Idle? then p else Finish(c, Moved(c, p, Advance(t)), t)
  }

  /** Without interruption the single steps of a check amount to the whole check. */
  lemma AloneItIsDecide(c: Config, p: Pool, t: nat, key: Key, now: Time)
    requires t < |p.callers| && p.callers[t].Idle?
    ensures Finish(c, Moved(c, p, Lookup(t, key, now)), t) == Pool(Decide(c, p.windows, key, now).0, p.callers)
  {
    var m := p.windows;
    var p1 := Moved(c, p, Lookup(t, key, now));
    if key in m {
      Commits(c, p1, t, p.callers);
    } else {
      var p2 := Moved(c, p1, Advance(t));
      if |m| < MAX_KEYS {
        Commits(c, p2, t, p.callers);
      } else {
        var p3 := Moved(c, p2, Advance(t));
        var p4 := Moved(c, p3, Advance(t));
        if p4.callers[t].Cleared? {
          Commits(c, p4, t, p.callers);
        } else {
          assert p4.callers == p.callers;
        }
        assert Finish(c, p2, t) == Finish(c, p3, t) == Finish(c, p4, t);
      }
      assert Finish(c, p1, t) == Finish(c, p2, t);
    }
  }

  lemma Commits(c: Config, p: Pool, t: nat, callers: seq<Phase>)
    requires t < |p.callers| == |callers| && p.callers[t].Cleared? && callers[t].Idle?
    requires p.callers == callers[t := p.callers[t]]
    ensures Finish(c, p, t) == Pool(IdealCheck(c, p.windows, p.callers[t].key, p.callers[t].now).0, callers)
  {
    assert p.callers[t := Idle] == callers;
  }

  ghost predicate IsRun(c: Config, states: seq<Pool>, moves: seq<Move>) {
    && |states| == |moves| + 1
    && forall i :: 0 <= i < |moves| ==> CanMove(states[i], moves[i]) && states[i + 1] == Moved(c, states[i], moves[i])
  }

  /** Keys that the guard has let through: the next step of their caller puts them into the map. */
  function Pending(callers: seq<Phase>): set<Key> {
    set t | 0 <= t < |callers| && callers[t].Cleared? :: callers[t].key
  }

  lemma {:induction false} PendingSize(callers: seq<Phase>)
    ensures |Pending(callers)| <= |callers|
  {
    if callers != [] {
      var init, last := callers[..|callers| - 1], callers[|callers| - 1];
      PendingSize(init);
      if last.Cleared? {
        assert Pending(callers) == Pending(init) + {last.key};
      } else {
        assert Pending(callers) == Pending(init);
      }
    }
  }

  predicate OvershootBounded(p: Pool) {
    |p.callers| >= 1 && |p.windows.Keys + Pending(p.callers)| <= MAX_KEYS + |p.callers| - 1
  }

  lemma UnionSize<T>(a: set<T>, b: set<T>)
    ensures |a + b| <= |a| + |b|
  {
    assert a + b == a + (b - a);
    SubsetSize(b - a, b);
  }

  /** Only a caller let through because of the map's size makes room for a key that was not counted before. */
  lemma NoNewKey(c: Config, p: Pool, move: Move)
    requires CanMove(p, move) && !(move.Advance? && Moved(c, p, move).callers[move.t].Cleared?)
    ensures var p' := Moved(c, p, move);
            p'.windows.Keys + Pending(p'.callers) <= p.windows.Keys + Pending(p.callers)
  {
    var p' := Moved(c, p, move);
    assert p'.windows.Keys <= p.windows.Keys + Pending(p.callers);
    forall k | k in Pending(p'.callers)
      ensures k in p.windows.Keys + Pending(p.callers)
    {
      var t :| 0 <= t < |p'.callers| && p'.callers[t].Cleared? && p'.callers[t].key == k;
      assert move.Background? || t != move.t ==> p.callers[t] == p'.callers[t];
    }
  }

  lemma MoveKeepsBound(c: Config, p: Pool, move: Move)
    requires OvershootBounded(p) && CanMove(p, move)
    ensures OvershootBounded(Moved(c, p, move)) && |Moved(c, p, move).callers| == |p.callers|
  {
    var p' := Moved(c, p, move);
    assert |p'.callers| == |p.callers|;
    if move.Advance? && p'.callers[move.t].Cleared? {
      assert |p'.windows.Keys| == |p'.windows| < MAX_KEYS;
      UnionSize(p'.windows.Keys, Pending(p'.callers));
      PendingSize(p'.callers);
    } else {
      NoNewKey(c, p, move);
      hide Moved, Pending;
      SubsetSize(p'.windows.Keys + Pending(p'.callers), p.windows.Keys + Pending(p.callers));
    }
  }

  /** Concurrent cap: with T callers the map never holds more than T - 1 keys above the cap. */
  lemma {:induction false} OvershootIsBounded(c: Config, states: seq<Pool>, moves: seq<Move>, i: nat)
    requires IsRun(c, states, moves) && i < |states|
    requires states[0].windows == map[] && |states[0].callers| >= 1
    requires forall t :: 0 <= t < |states[0].callers| ==> states[0].callers[t].Idle?
    ensures OvershootBounded(states[i]) && |states[i].callers| == |states[0].callers|
    ensures |states[i].windows| <= MAX_KEYS + |states[0].callers| - 1
  {
    if i == 0 {
      assert Pending(states[0].callers) == {};
    } else {
      OvershootIsBounded(c, states, moves, i - 1);
      assert CanMove(states[i - 1], moves[i - 1]) && states[i] == Moved(c, states[i - 1], moves[i - 1]);
      MoveKeepsBound(c, states[i - 1], moves[i - 1]);
    }
    SubsetSize(states[i].windows.Keys, states[i].windows.Keys + Pending(states[i].callers));
  }

  // A caller that is held up between reading the clock and locking the entry, and what happens meanwhile.
  const LATE: Key := "k"

  const HELD_UP := Pool(map[], [Cleared(LATE, 0), Idle])
  const OVERTAKEN := Pool(map[LATE := WindowEntry(10, 1)], [Cleared(LATE, 0), Idle])

  /**
   The burst bound is one of checks in the order of their clock readings. With a limit of one, a check that read
   the clock at 0 and is overtaken by one at 10 and by a sweep is admitted as well: two within one window.
   */
  lemma OvertakenChecksExceedTheBound(w: nat) returns (states: seq<Pool>, moves: seq<Move>)
    requires w > 10
    ensures var c := Config(1, w);
            && IsRun(c, states, moves) && |moves| == 7 && states[0] == Pool(map[], [Idle, Idle])
            && moves[4] == Advance(1) && states[4].callers[1] == Cleared(LATE, 10)
            && IdealCheck(c, states[4].windows, LATE, 10).1 == Allowed
            && moves[6] == Advance(0) && states[6].callers[0] == Cleared(LATE, 0)
            && IdealCheck(c, states[6].windows, LATE, 0).1 == Allowed
  {
    var c := Config(1, w);
    var idle, late := Pool(map[], [Idle, Idle]), HELD_UP;
    moves := [Lookup(0, LATE, 0), Advance(0), Lookup(1, LATE, 10), Advance(1), Advance(1), Background(10 + w),
              Advance(0)];
    var swept := Moved(c, OVERTAKEN, Background(10 + w));
    states := [idle, idle.(callers := [Absent(LATE, 0), Idle]), late,
               late.(callers := [Cleared(LATE, 0), Absent(LATE, 10)]),
               late.(callers := [Cleared(LATE, 0), Cleared(LATE, 10)]), OVERTAKEN, swept,
               Moved(c, swept, Advance(0))];
    assert swept.windows == map[];
  }
}
