/**
 The task loop of the agent process: collect, drain and config ticks in any order, then one final drain.
 The schedule says which tick comes when and what its environment does to it.
 */
module TaskLoop {
  import opened Wrappers
  import opened Ingest
  import opened Network
  import opened View
  import opened BundleQueue
  import opened Delivery
  import opened Runtime
  import C = ConfigSync
  import F = Fates
  import U = Uploader

  // ---------------------------------------------------------------------------------------------
  // Schedules
  // ---------------------------------------------------------------------------------------------

  /**
   One turn of the loop; between the agent's ticks others may be at work on the server. A drain takes its
   time, and the write of the config state after a drain or a fetch may fail.
   */
  datatype Tick =
    | Collects(found: Option<Bundle>, move: Move, write: Write)
    | Drains(files: DrainCourse, world: F.World, lasts: nat, saves: bool)
    | Fetches(resp: C.Response, saves: bool)
    | Stops(files: DrainCourse, world: F.World, lasts: nat)
    | Others(es: seq<NetEvent>)

  /** A tick and the time that passes before it. */
  datatype Beat = Beat(elapsed: nat, tick: Tick)

  predicate IsDrain(tick: Tick) {
    tick.Drains? || tick.Stops?
  }

  function Lasts(tick: Tick): nat {
    if IsDrain(tick) then tick.lasts else 0
  }

  /** The clock when the first n ticks are over. */
  function EndTime(beats: seq<Beat>, start: nat, n: nat): nat
    requires n <= |beats|
  {
    if n == 0 then start else EndTime(beats, start, n - 1) + beats[n - 1].elapsed + Lasts(beats[n - 1].tick)
  }

  /** The clock when tick i begins. */
  function StartTime(beats: seq<Beat>, start: nat, i: nat): nat
    requires i < |beats|
  {
    EndTime(beats, start, i) + beats[i].elapsed
  }

  predicate Finds(beat: Beat) {
    beat.tick.Collects? && beat.tick.found.Some?
  }

  function FoundId(beat: Beat): BundleId
    requires Finds(beat)
  {
    beat.tick.found.value.meta.bundle
  }

  /** What collections will produce: bundles described by their own bytes, each with a new id. */
  ghost predicate Collectable(reg: Registry, beats: seq<Beat>, from: nat) {
    && (forall i :: from <= i < |beats| && Finds(beats[i]) ==>
          FoundId(beats[i]) !in reg
          && Describes(beats[i].tick.found.value.meta, FoundId(beats[i]), beats[i].tick.found.value.bytes))
    && (forall i, j :: from <= i < j < |beats| && Finds(beats[i]) && Finds(beats[j]) ==>
          FoundId(beats[i]) != FoundId(beats[j]))
  }

  // ---------------------------------------------------------------------------------------------
  // The config clock
  // ---------------------------------------------------------------------------------------------

  /** Nothing but syncs, drains that counted as successes, and restarts. */
  ghost predicate Wired(history: seq<C.Event>) {
    C.Ordered(history) && forall e :: e in history ==> e.action.Sync? || e.action.Success? || e.action.Restart?
  }

  /** The syncer's state is what this history of its actions, none later than now, amounts to. */
  ghost predicate Tracks(syncer: C.Syncer, history: seq<C.Event>, now: nat)
    reads syncer
  {
    Wired(history) && syncer.State() == C.Replay(history) && forall i :: 0 <= i < |history| ==> history[i].time <= now
  }

  lemma WiredOneMore(history: seq<C.Event>, e: C.Event)
    requires Wired(history) && (e.action.Sync? || e.action.Success?)
    requires forall i :: 0 <= i < |history| ==> history[i].time <= e.time
    ensures Wired(history + [e]) && C.Replay(history + [e]) == C.Step(C.Replay(history), e)
  {
    assert (history + [e])[..|history|] == history;
    assert forall i, j :: 0 <= i < j < |history + [e]| ==> (history + [e])[i].time <= (history + [e])[j].time;
  }

  lemma TracksLater(syncer: C.Syncer, history: seq<C.Event>, now: nat, later: nat)
    requires Tracks(syncer, history, now) && now <= later
    ensures Tracks(syncer, history, later)
  {
  }

  lemma NoRollbackIsDue(syncer: C.Syncer, history: seq<C.Event>, now: nat)
    requires Tracks(syncer, history, now)
    ensures !C.ShouldRollback(syncer.State(), now)
  {
    C.NoFailureNoRollback(history, now);
  }

  /** What a tick reports to the config clock: a drain that returns is a success, whatever came of it. */
  function Reports(tick: Tick, now: nat, later: nat, halted: bool): seq<C.Event> {
    match tick
    case Drains(_, _, _, saves) => if halted then [] else [C.Event(later, C.Action.Success(saves))]
    case Fetches(resp, saves) => [C.Event(now, C.Action.Sync(C.Fetched(resp), saves))]
    case _ => []
  }

  /** What the first n ticks report; the last of them may have been cut off. */
  function Reported(beats: seq<Beat>, start: nat, n: nat, halted: bool): seq<C.Event>
    requires n <= |beats|
  {
    if n == 0 then []
    else Reported(beats, start, n - 1, false)
         + Reports(beats[n - 1].tick, StartTime(beats, start, n - 1), EndTime(beats, start, n), halted)
  }

  // ---------------------------------------------------------------------------------------------
  // Turns
  // ---------------------------------------------------------------------------------------------

  /** What a tick does to the system, and what one bundle sees of it. */
  ghost predicate TickDoes(s: System, s': System, t: Turn, tick: Tick, nanos: nat, tries: nat, b: BundleId) {
    match tick
    case Collects(found, move, write) =>
      && !t.drained && s' == Collecting(s, found, nanos, t.now, move, write)
      && (t.halted <==> DiesCollecting(found, move, write))
    case Fetches(_, _) => !t.drained && !t.halted && s' == s
    case Others(es) =>
      && !t.drained && !t.halted && s' == s.(net := U.Ran(s.reg, s.net, es))
      && (AllForeign(s'.net.server, es, b) ==> SameView(s.net.server, s'.net.server, b))
    case _ => DrainDoes(s, s', t, tick.files, tick.world, 0, tries, b)
  }

  /** Drains one bundle and, unless cut off or the last, reports that as a success, whatever came of it. */
  method DrainTick(agent: Agent, syncer: C.Syncer, nanos: nat, now: nat, tick: Tick, ghost past: seq<C.Event>,
                   ghost b: BundleId)
    returns (halted: bool, ghost history: seq<C.Event>, ghost t: Turn)
    requires Inv(agent.State()) && Tracks(syncer, past, now) && IsDrain(tick)
    modifies agent.queue, agent.link, syncer
    ensures Inv(agent.State()) && Reaches(old(agent.State()), agent.State())
    ensures DrainDoes(old(agent.State()), agent.State(), t, tick.files, tick.world, 0, agent.policy.maxAttempts, b)
    ensures t.now == now && t.later == now + tick.lasts && t.halted == halted
    ensures history == past + Reports(tick, now, now + tick.lasts, halted)
    ensures Tracks(syncer, history, now + tick.lasts)
    ensures !halted && tick.Drains? ==> syncer.firstFailure == None && syncer.lastSuccess == Some(now + tick.lasts)
    ensures halted || tick.Stops? ==> unchanged(syncer)
  {
    hide Inv, Reaches, C.Step, C.Replay, DrainDoes, FindResumable, Kept;
    history := past;
    var later := now + tick.lasts;
    TracksLater(syncer, past, now, later);
    var next;
    halted, next, t := agent.Drain(nanos, now, later, tick.files, tick.world, 0, b);
    if !halted && tick.Drains? {
      syncer.RecordSuccess(later, tick.saves);
      WiredOneMore(history, C.Event(later, C.Action.Success(tick.saves)));
      history := history + [C.Event(later, C.Action.Success(tick.saves))];
    }
  }

  /** Fetches the override and rolls back if that is due, which in this loop it never is. */
  method ConfigTick(syncer: C.Syncer, resp: C.Response, saves: bool, now: nat, ghost past: seq<C.Event>)
    returns (ghost history: seq<C.Event>)
    requires Tracks(syncer, past, now)
    modifies syncer
    ensures history == past + [C.Event(now, C.Action.Sync(C.Fetched(resp), saves))] && Tracks(syncer, history, now)
    ensures syncer.applied == if resp.Answer? && resp.status == 200 then resp.body else None
  {
    hide C.Step, C.Replay;
    var effective := syncer.Sync(resp, now, saves);
    ghost var e := C.Event(now, C.Action.Sync(C.Fetched(resp), saves));
    WiredOneMore(past, e);
    history := past + [e];
    assert Tracks(syncer, history, now);
    if C.ShouldRollback(syncer.State(), now) {
      syncer.RollBack(now, saves);
      C.NoFailureNoRollback(history, now);
      assert false;
    }
  }

  /** One tick of the loop, whichever it is. */
  method TakeTurn(agent: Agent, syncer: C.Syncer, tick: Tick, nanos: nat, now: nat, ghost past: seq<C.Event>,
                  ghost b: BundleId)
    returns (halted: bool, ghost history: seq<C.Event>, ghost t: Turn)
    requires Inv(agent.State()) && Tracks(syncer, past, now) && Collectable(agent.reg, [Beat(0, tick)], 0)
    modifies agent`reg, agent.queue, agent.link, syncer
    ensures Inv(agent.State()) && Reaches(old(agent.State()), agent.State())
    ensures TickDoes(old(agent.State()), agent.State(), t, tick, nanos, agent.policy.maxAttempts, b)
    ensures t.now == now && t.later == now + Lasts(tick) && t.halted == halted
    ensures history == past + Reports(tick, now, t.later, halted) && Tracks(syncer, history, t.later)
  {
    hide Inv, Reaches, C.Replay, C.Step, Kept, Grows, SameView, AllForeign, Leads, C.ShouldRollback, DrainDoes,
         FindResumable, Tracks;
    ghost var start := agent.State();
    assert Finds(Beat(0, tick)) ==> Finds([Beat(0, tick)][0]);
    ReachesSelf(start);
    halted, history := false, past;
    t := Turn(now, now, false, None, false, 0, false);
    match tick {
      case Collects(found, move, write) =>
        var r := agent.CollectAndEnqueue(found, nanos, now, move, write);
        ReachableKeepsInv(start, agent.State());
        halted := r.Halted?;
        t := t.(halted := halted);
      case Fetches(resp, saves) =>
        history := ConfigTick(syncer, resp, saves, now, past);
      case Others(es) =>
        agent.link.Interfere(agent.reg, es);
        ReachesByWire(start, agent.link.net);
        ReachableKeepsInv(start, agent.State());
        assert AllForeign(agent.link.net.server, es, b) ==> U.Untouched(start.net, agent.link.net, b);
      case _ =>
        halted, history, t := DrainTick(agent, syncer, nanos, now, tick, past, b);
    }
  }

  lemma NextTick(reg: Registry, reg': Registry, beats: seq<Beat>, i: nat)
    requires i < |beats| && Collectable(reg, beats, i)
    ensures Collectable(reg, [Beat(0, beats[i].tick)], 0) && (Finds(beats[i]) ==> FoundId(beats[i]) !in reg)
    ensures reg' == reg || (Finds(beats[i]) && reg' == reg[FoundId(beats[i]) := beats[i].tick.found.value]) ==>
              Collectable(reg', beats, i + 1)
  {
  }

  /** A tick registers at most the bundle it finds. */
  lemma TickRegisters(s: System, s': System, t: Turn, beat: Beat, nanos: nat, tries: nat, b: BundleId)
    requires TickDoes(s, s', t, beat.tick, nanos, tries, b)
    ensures s'.reg == s.reg || (Finds(beat) && s'.reg == s.reg[FoundId(beat) := beat.tick.found.value])
  {
  }

  // ---------------------------------------------------------------------------------------------
  // The loop
  // ---------------------------------------------------------------------------------------------

  /** The log is that of the first n ticks: each turn did what its tick does, at its time. */
  ghost predicate LogOk(log: Log, beats: seq<Beat>, start: nat, n: nat, tries: nat, b: BundleId) {
    && n <= |beats| && |log.turns| == n && |log.states| == n + 1
    && (forall i :: 0 <= i <= n ==> Inv(log.states[i]))
    && (forall i :: 0 <= i < n ==> TurnOk(log, beats, start, i, tries, b))
  }

  ghost predicate TurnOk(log: Log, beats: seq<Beat>, start: nat, i: nat, tries: nat, b: BundleId)
    requires i < |beats| && i < |log.turns| && i + 1 < |log.states|
  {
    && TickDoes(log.states[i], log.states[i + 1], log.turns[i], beats[i].tick, i, tries, b)
    && Reaches(log.states[i], log.states[i + 1])
    && log.turns[i].now == StartTime(beats, start, i) && log.turns[i].later == EndTime(beats, start, i + 1)
    && (Finds(beats[i]) ==> FoundId(beats[i]) !in log.states[i].reg)
    && (log.turns[i].halted ==> i == |log.turns| - 1)
  }

  lemma LogGrows(log: Log, s: System, t: Turn, beats: seq<Beat>, start: nat, n: nat, tries: nat, b: BundleId)
    requires LogOk(log, beats, start, n, tries, b) && n < |beats| && Inv(s)
    requires forall i :: 0 <= i < n ==> !log.turns[i].halted
    requires var all := Log(log.states + [s], log.turns + [t]);
             TurnOk(all, beats, start, n, tries, b)
    ensures LogOk(Log(log.states + [s], log.turns + [t]), beats, start, n + 1, tries, b)
  {
    hide Inv, TickDoes, Reaches, StartTime, EndTime;
    var all := Log(log.states + [s], log.turns + [t]);
    forall i | 0 <= i < n ensures TurnOk(all, beats, start, i, tries, b) {
      assert TurnOk(log, beats, start, i, tries, b);
    }
  }

  lemma EmptyLog(s: System, beats: seq<Beat>, start: nat, tries: nat, b: BundleId)
    requires Inv(s)
    ensures LogOk(Log([s], []), beats, start, 0, tries, b) && EndTime(beats, start, 0) == start
  {
  }

  /** The turn just taken belongs into the log. */
  lemma NewTurn(log: Log, all: Log, s: System, s': System, t: Turn, beats: seq<Beat>, start: nat, n: nat, tries: nat,
                b: BundleId)
    requires n < |beats| && |log.turns| == n && |log.states| == n + 1 && log.states[n] == s
    requires all == Log(log.states + [s'], log.turns + [t])
    requires TickDoes(s, s', t, beats[n].tick, n, tries, b) && Reaches(s, s')
    requires t.now == EndTime(beats, start, n) + beats[n].elapsed && t.later == t.now + Lasts(beats[n].tick)
    requires Finds(beats[n]) ==> FoundId(beats[n]) !in s.reg
    ensures TurnOk(all, beats, start, n, tries, b) && EndTime(beats, start, n + 1) == t.later
  {
    hide TickDoes, Reaches;
  }

  lemma OneMoreReport(past: seq<C.Event>, told: seq<C.Event>, history: seq<C.Event>, beats: seq<Beat>, start: nat,
                      n: nat, halted: bool)
    requires n < |beats| && told == past + Reported(beats, start, n, false)
    requires history == told + Reports(beats[n].tick, StartTime(beats, start, n), EndTime(beats, start, n + 1), halted)
    ensures history == past + Reported(beats, start, n + 1, halted)
  {
  }

  // ---------------------------------------------------------------------------------------------
  // A fair loop delivers
  // ---------------------------------------------------------------------------------------------

  /** Judged by the rows of the server, nothing else works on the bundle during the tick. */
  ghost predicate QuietTick(s: Server, tick: Tick, b: BundleId) {
    match tick
    case Collects(_, _, _) => true
    case Fetches(_, _) => true
    case Others(es) => AllForeign(s, es, b)
    case _ => forall k: nat :: U.CalmFate(s, tick.world(k), b)
  }

  ghost predicate Quiet(s: Server, beats: seq<Beat>, n: nat, b: BundleId)
    requires n <= |beats|
  {
    forall i :: 0 <= i < n ==> QuietTick(s, beats[i].tick, b)
  }

  lemma QuietTickEarlier(s: Server, s': Server, tick: Tick, b: BundleId)
    requires Grows(s, s') && QuietTick(s', tick, b)
    ensures QuietTick(s, tick, b)
  {
    hide Grows, AllForeign, U.GapsForeign;
    if tick.Others? {
      U.AllForeignEarlier(s, s', tick.es, b);
    } else if IsDrain(tick) {
      forall k: nat ensures U.CalmFate(s, tick.world(k), b) {
        var fate := tick.world(k);
        assert U.CalmFate(s', fate, b);
        U.AllForeignEarlier(s, s', fate.beside, b);
        if fate.course.Handled? {
          U.GapsForeignEarlier(s, s', fate.course.gaps, |fate.course.gaps|, b);
        }
      }
    }
  }

  lemma QuietIsCalm(s: Server, tick: Tick, next: nat, b: BundleId)
    requires QuietTick(s, tick, b) && IsDrain(tick)
    ensures U.Calm(s, tick.world, 0, next, b)
  {
    hide U.CalmFate;
  }

  /** A drain in which something is lost: some exchange, or the bundle's file cannot be read. */
  ghost predicate Bad(tick: Tick) {
    IsDrain(tick) && (!tick.files.zipReadable || exists k: nat :: F.Lossy(tick.world(k)))
  }

  ghost function BadTicks(beats: seq<Beat>, from: nat, n: nat): nat
    requires n <= |beats|
  {
    if n <= from then 0 else BadTicks(beats, from, n - 1) + if Bad(beats[n - 1].tick) then 1 else 0
  }

  function DrainTicks(beats: seq<Beat>, lo: nat, hi: nat): nat
    requires hi <= |beats|
  {
    if hi <= lo then 0 else DrainTicks(beats, lo, hi - 1) + if IsDrain(beats[hi - 1].tick) then 1 else 0
  }

  /** A stretch of ticks. */
  datatype Window = Window(lo: nat, hi: nat)

  /** When the bundle was enqueued, by when it is due at first, its rivals, and windows in which it gets its turn. */
  datatype Fairness = Fairness(enqueuedAt: Time, due: Time, rivals: set<BundleId>, windows: seq<Window>)

  /** The ticks begin within one backoff period, and more of them drain than there are rivals. */
  predicate FairWindow(beats: seq<Beat>, start: nat, n: nat, from: nat, w: Window, rivals: set<BundleId>)
    requires n <= |beats|
  {
    && from <= w.lo < w.hi <= n && DrainTicks(beats, w.lo, w.hi) > |rivals|
    && forall i :: w.lo <= i < w.hi ==> StartTime(beats, start, i) < StartTime(beats, start, w.lo) + QUEUE_FAIL_BACKOFF
  }

  /** Between two windows the backoff of a bundle that failed in the first one passes. */
  predicate Spaced(beats: seq<Beat>, start: nat, v: Window, w: Window)
    requires v.hi <= |beats| && w.lo < |beats|
  {
    v.hi <= w.lo && EndTime(beats, start, v.hi) + QUEUE_FAIL_BACKOFF <= StartTime(beats, start, w.lo)
  }

  ghost predicate FairWindows(beats: seq<Beat>, start: nat, n: nat, from: nat, f: Fairness)
    requires n <= |beats|
  {
    && (forall j :: 0 <= j < |f.windows| ==> FairWindow(beats, start, n, from, f.windows[j], f.rivals))
    && (f.windows != [] ==> f.due <= StartTime(beats, start, f.windows[0].lo))
    && (forall j, k :: 0 <= j < |f.windows| && 0 <= k < |f.windows| && k == j + 1 ==>
          Spaced(beats, start, f.windows[j], f.windows[k]))
  }

  /** Everything that is not done and no younger than the bundle, or collected no later, is a rival. */
  ghost predicate RivalsCover(sidecars: map<BundleId, Doc>, beats: seq<Beat>, start: nat, n: nat, b: BundleId,
                              f: Fairness)
    requires n <= |beats|
  {
    && (forall c :: c in sidecars && c != b && Competes(sidecars[c], f.enqueuedAt) ==> c in f.rivals)
    && (forall i :: 0 <= i < n && Finds(beats[i]) && StartTime(beats, start, i) <= f.enqueuedAt ==>
          FoundId(beats[i]) == b || FoundId(beats[i]) in f.rivals)
  }

  /**
   What fairness asks of a schedule: drains whose file operations on the queue succeed, as many rivals as named,
   and windows one backoff period apart in each of which more drains begin than there are rivals. The bundle is
   in the queue from the start, or from the tick on that collects it.
   */
  ghost predicate Fair(sidecars: map<BundleId, Doc>, beats: seq<Beat>, start: nat, n: nat, from: nat, b: BundleId,
                       f: Fairness) {
    && from <= n <= |beats|
    && (forall i :: 0 <= i < n && IsDrain(beats[i].tick) ==> Smooth(beats[i].tick.files))
    && RivalsCover(sidecars, beats, start, n, b, f) && FairWindows(beats, start, n, from, f)
    && if from == 0 then DueBy(sidecars, b, f.due) && sidecars[b].entry.enqueuedAt == f.enqueuedAt
       else f.enqueuedAt == StartTime(beats, start, from - 1)
  }

  function Owner(reg: Registry, b: BundleId): Bundle {
    if b in reg then reg[b] else Bundle(Meta(b, Sha256([]), 0, Unknown), [])
  }

  /** The bundle is one the server accepts, and stands well with it when its time in the queue begins. */
  ghost predicate Queued(s: System, beats: seq<Beat>, from: nat, b: BundleId, bundle: Bundle) {
    && Acceptable(bundle.meta, bundle.bytes)
    && if from == 0 then b in s.reg && s.reg[b] == bundle && Healthy(s.net.server, bundle.meta, bundle.bytes)
       else from <= |beats| && beats[from - 1].tick == Collects(Some(bundle), Moved, Completes)
            && bundle.meta.bundle == b
  }

  function PicksIn(turns: seq<Turn>, from: nat, n: nat, b: BundleId): nat
    requires n <= |turns|
  {
    if n <= from then 0 else PicksIn(turns, from, n - 1, b) + if Picks(turns[n - 1], b) then 1 else 0
  }

  /** The bundle is registered and stands well with the server. */
  ghost predicate Standing(s: System, b: BundleId, bundle: Bundle) {
    b in s.reg && s.reg[b] == bundle && Healthy(s.net.server, bundle.meta, bundle.bytes)
  }

  /** Its entry is as old as ever, and done or due by some time; everything it competes with is a rival. */
  ghost predicate InLine(sidecars: map<BundleId, Doc>, b: BundleId, due: Time, f: Fairness) {
    && b in sidecars && sidecars[b].Whole? && sidecars[b].entry.enqueuedAt == f.enqueuedAt
    && (IsDone(sidecars, b) || DueBy(sidecars, b, due))
    && forall c :: c in sidecars && c != b && Competes(sidecars[c], f.enqueuedAt) ==> c in f.rivals
  }

  /** Due from the start, or one backoff period after the turn before. */
  function DueAt(log: Log, from: nat, i: nat, b: BundleId, f: Fairness): Time
    requires i <= |log.turns|
  {
    if PicksIn(log.turns, from, i, b) == 0 || i == 0 then f.due else log.turns[i - 1].later + QUEUE_FAIL_BACKOFF
  }

  /** A turn keeps the queue in order. */
  lemma TurnIsOrderly(s: System, s': System, t: Turn, tick: Tick, nanos: nat, tries: nat, b: BundleId)
    requires TickDoes(s, s', t, tick, nanos, tries, b) && t.now <= t.later && !t.halted
    requires IsDrain(tick) ==> Smooth(tick.files)
    requires tick.Collects? && tick.found.Some? ==> tick.found.value.meta.bundle !in s.disk.sidecars
    ensures Orderly(s.disk.sidecars, s'.disk.sidecars, t) && (t.drained <==> IsDrain(tick))
    ensures forall c :: !t.drained && c in s'.disk.sidecars && c !in s.disk.sidecars ==>
              tick.Collects? && tick.found.Some? && c == tick.found.value.meta.bundle
  {
  }

  lemma StaysInLine(before: map<BundleId, Doc>, after: map<BundleId, Doc>, t: Turn, b: BundleId, due: Time, due': Time,
                    f: Fairness)
    requires Orderly(before, after, t) && InLine(before, b, due, f)
    requires if Picks(t, b) then due' >= t.later + QUEUE_FAIL_BACKOFF else due' >= due
    requires forall c :: c in after && c !in before && t.now <= f.enqueuedAt ==> c in f.rivals
    ensures InLine(after, b, due', f) && (IsDone(before, b) ==> IsDone(after, b) && !Picks(t, b))
  {
    forall c | c in after && c != b && Competes(after[c], f.enqueuedAt) ensures c in f.rivals {
      assert c in before ==> Competes(before[c], f.enqueuedAt);
    }
  }

  /** What a turn is to the bundle. */
  ghost function VisitAt(log: Log, tick: Tick, i: nat, tries: nat, b: BundleId): Visit
    requires i < |log.turns| && i + 1 < |log.states|
  {
    var s, s', t := log.states[i], log.states[i + 1], log.turns[i];
    if IsDrain(tick) then VisitOf(s, s', t, tick.files.zipReadable, tick.world, 0, tries, b)
    else Visit(false, U.Attempt(s.net.server, s'.net.server, false, true, (k: nat) => F.Fate([], F.RequestLost), 0, 0,
                                tries))
  }

  lemma TurnServes(log: Log, beats: seq<Beat>, start: nat, n: nat, i: nat, tries: nat, b: BundleId, bundle: Bundle)
    requires LogOk(log, beats, start, n, tries, b) && i < n && tries > 0
    requires b in log.states[i].reg && log.states[i].reg[b] == bundle && Acceptable(bundle.meta, bundle.bytes)
    requires QuietTick(log.states[i + 1].net.server, beats[i].tick, b)
    ensures Serves(VisitAt(log, beats[i].tick, i, tries, b), bundle.meta, bundle.bytes)
    ensures b in log.states[i + 1].reg && log.states[i + 1].reg[b] == bundle
  {
    hide Inv, Acceptable, Healthy, SameView, U.CalmFate, U.Calm, AllForeign, Reaches, Serves, StartTime, EndTime;
    assert TurnOk(log, beats, start, i, tries, b);
    var s, s' := log.states[i], log.states[i + 1];
    OwnId(s, b);
    TickRegisters(s, s', log.turns[i], beats[i], i, tries, b);
    if IsDrain(beats[i].tick) {
      QuietIsCalm(s'.net.server, beats[i].tick, log.turns[i].next, b);
    } else {
      SameViewSelf(s.net.server, b);
      NotOwnServes(VisitAt(log, beats[i].tick, i, tries, b), bundle);
    }
  }

  lemma OwnId(s: System, b: BundleId)
    requires Inv(s) && b in s.reg
    ensures s.reg[b].meta.bundle == b
  {
    InvHasNetInv(s, b);
  }

  lemma NotOwnServes(d: Visit, bundle: Bundle)
    requires !d.own && SameView(d.attempt.before, d.attempt.after, bundle.meta.bundle)
    ensures Serves(d, bundle.meta, bundle.bytes)
  {
  }

  lemma ServedStaysHealthy(d: Visit, bundle: Bundle)
    requires Serves(d, bundle.meta, bundle.bytes) && Healthy(d.attempt.before, bundle.meta, bundle.bytes)
    ensures Healthy(d.attempt.after, bundle.meta, bundle.bytes)
    ensures d.own && !Committed(d.attempt.after, bundle.meta.bundle) ==> U.Losses(d.attempt) > 0
  {
    hide U.IsAttempt, Healthy, SameView;
    if d.own {
      AttemptLeavesHealthy(d.attempt, bundle.meta, bundle.bytes);
      U.AttemptEffect(d.attempt, bundle.meta, bundle.bytes);
    } else {
      HealthyBySameView(d.attempt.before, d.attempt.after, bundle.meta, bundle.bytes);
    }
  }

  lemma {:induction false} StaysRegistered(log: Log, beats: seq<Beat>, start: nat, n: nat, from: nat, i: nat,
                                           tries: nat, b: BundleId, bundle: Bundle)
    requires LogOk(log, beats, start, n, tries, b) && from <= i <= n
    requires b in log.states[from].reg && log.states[from].reg[b] == bundle
    ensures b in log.states[i].reg && log.states[i].reg[b] == bundle
    decreases i
  {
    hide Inv, TickDoes, Reaches, StartTime, EndTime;
    if from < i {
      StaysRegistered(log, beats, start, n, from, i - 1, tries, b, bundle);
      assert TurnOk(log, beats, start, i - 1, tries, b);
      TickRegisters(log.states[i - 1], log.states[i], log.turns[i - 1], beats[i - 1], i - 1, tries, b);
    }
  }

  ghost function VisitsOf(log: Log, beats: seq<Beat>, from: nat, n: nat, tries: nat, b: BundleId): (ds: seq<Visit>)
    requires from <= n <= |beats| && n <= |log.turns| && n < |log.states|
    ensures |ds| == n - from
    ensures forall i :: 0 <= i < n - from ==> ds[i] == VisitAt(log, beats[from + i].tick, from + i, tries, b)
  {
    seq(n - from, i requires 0 <= i < n - from => VisitAt(log, beats[from + i].tick, from + i, tries, b))
  }

  /**
   The turns of a loop in which nobody else works on a bundle are visits, one after the other, so what holds of
   drains in any order holds of the loop.
   */
  lemma TurnsAreVisits(log: Log, beats: seq<Beat>, start: nat, n: nat, from: nat, tries: nat, b: BundleId,
                       bundle: Bundle)
    requires LogOk(log, beats, start, n, tries, b) && from <= n && tries > 0
    requires b in log.states[from].reg && log.states[from].reg[b] == bundle && Acceptable(bundle.meta, bundle.bytes)
    requires Quiet(log.states[n].net.server, beats, n, b)
    ensures Visits(VisitsOf(log, beats, from, n, tries, b), bundle.meta, bundle.bytes)
  {
    hide TurnOk, Inv, Quiet, QuietTick, Serves, SameView, Acceptable;
    var ds := VisitsOf(log, beats, from, n, tries, b);
    forall i | 0 <= i < |ds| ensures Serves(ds[i], bundle.meta, bundle.bytes) {
      StaysRegistered(log, beats, start, n, from, from + i, tries, b, bundle);
      TurnIsQuiet(log, beats, start, n, from + i, tries, b);
      TurnServes(log, beats, start, n, from + i, tries, b, bundle);
    }
    forall i, j | 0 <= i < |ds| && 0 <= j < |ds| && j == i + 1
      ensures SameView(ds[i].attempt.after, ds[j].attempt.before, bundle.meta.bundle)
    {
      SameViewSelf(ds[j].attempt.before, bundle.meta.bundle);
    }
  }

  /** A drain that lost something is a bad one. */
  lemma LossesAreBad(d: Visit, tick: Tick)
    requires IsDrain(tick) && d.attempt.world == tick.world && d.attempt.readable == tick.files.zipReadable
    requires U.Losses(d.attempt) > 0
    ensures Bad(tick)
  {
    if tick.files.zipReadable {
      var k := SomeLoss(tick.world, d.attempt.at, d.attempt.next);
    }
  }

  lemma {:induction false} SomeLoss(world: F.World, at: nat, next: nat) returns (k: nat)
    requires F.LossesIn(world, at, next) > 0
    ensures F.Lossy(world(k))
    decreases next
  {
    if F.Lossy(world(next - 1)) {
      k := next - 1;
    } else {
      k := SomeLoss(world, at, next - 1);
    }
  }

  /** From any state of the log the server only moves on. */
  lemma {:induction false} LogIsMonotone(log: Log, beats: seq<Beat>, start: nat, n: nat, i: nat, tries: nat,
                                         b: BundleId)
    requires LogOk(log, beats, start, n, tries, b) && i <= n
    ensures Reaches(log.states[i], log.states[n]) && Grows(log.states[i].net.server, log.states[n].net.server)
    decreases n - i
  {
    hide Inv, TickDoes, Reaches, StartTime, EndTime, Grows;
    if i == n {
      ReachesSelf(log.states[n]);
    } else {
      assert TurnOk(log, beats, start, i, tries, b);
      LogIsMonotone(log, beats, start, n, i + 1, tries, b);
      ReachesOn(log.states[i], log.states[i + 1], log.states[n]);
    }
    ReachableGrows(log.states[i], log.states[n]);
  }

  lemma TurnIsQuiet(log: Log, beats: seq<Beat>, start: nat, n: nat, i: nat, tries: nat, b: BundleId)
    requires LogOk(log, beats, start, n, tries, b) && i < n && Quiet(log.states[n].net.server, beats, n, b)
    ensures QuietTick(log.states[i + 1].net.server, beats[i].tick, b)
    ensures Committed(log.states[i].net.server, b) ==> Committed(log.states[i + 1].net.server, b)
  {
    hide QuietTick, TickDoes, Reaches, Inv, StartTime, EndTime;
    LogIsMonotone(log, beats, start, n, i + 1, tries, b);
    QuietTickEarlier(log.states[i + 1].net.server, log.states[n].net.server, beats[i].tick, b);
    assert TurnOk(log, beats, start, i, tries, b);
    ReachableGrows(log.states[i], log.states[i + 1]);
  }

  /** Times only rise. */
  lemma {:induction false} TimesRise(beats: seq<Beat>, start: nat, i: nat, j: nat)
    requires i <= j <= |beats|
    ensures EndTime(beats, start, i) <= EndTime(beats, start, j)
    ensures i < j < |beats| ==> StartTime(beats, start, i) <= StartTime(beats, start, j)
    decreases j
  {
    if i < j {
      TimesRise(beats, start, i, j - 1);
    }
  }

  /** Where a bundle stands after some turns: with the server, in the queue, and in the count of its drains. */
  ghost predicate Going(log: Log, beats: seq<Beat>, from: nat, i: nat, b: BundleId, bundle: Bundle, f: Fairness)
    requires i <= |log.turns| <= |beats| && i < |log.states|
  {
    && Standing(log.states[i], b, bundle) && InLine(SidecarsAt(log, i), b, DueAt(log, from, i, b, f), f)
    && (!Committed(log.states[i].net.server, b) ==> PicksIn(log.turns, from, i, b) <= BadTicks(beats, from, i))
  }

  /** The sidecars of registered bundles only. */
  lemma UnregisteredHasNoSidecar(s: System, c: BundleId)
    requires Inv(s) && c !in s.reg
    ensures c !in s.disk.sidecars
  {
    assert c in s.disk.sidecars ==> SidecarOk(s.reg, s.disk, c);
  }

  lemma OrderlyTurn(log: Log, beats: seq<Beat>, start: nat, n: nat, i: nat, tries: nat, b: BundleId)
    requires LogOk(log, beats, start, n, tries, b) && i < n && !log.turns[i].halted
    requires IsDrain(beats[i].tick) ==> Smooth(beats[i].tick.files)
    ensures Orderly(SidecarsAt(log, i), SidecarsAt(log, i + 1), log.turns[i])
    ensures log.turns[i].drained <==> IsDrain(beats[i].tick)
    ensures forall c :: c in SidecarsAt(log, i + 1) && c !in SidecarsAt(log, i) ==>
              Finds(beats[i]) && c == FoundId(beats[i])
  {
    hide Inv, TickDoes, Reaches, Orderly;
    var s, s' := log.states[i], log.states[i + 1];
    assert TurnOk(log, beats, start, i, tries, b);
    TimesRise(beats, start, i, i + 1);
    if Finds(beats[i]) {
      UnregisteredHasNoSidecar(s, FoundId(beats[i]));
    }
    TurnIsOrderly(s, s', log.turns[i], beats[i].tick, i, tries, b);
    if log.turns[i].drained {
      DrainAddsNothing(s.disk.sidecars, s'.disk.sidecars, log.turns[i]);
    }
  }

  lemma DrainAddsNothing(before: map<BundleId, Doc>, after: map<BundleId, Doc>, t: Turn)
    requires Orderly(before, after, t) && t.drained
    ensures forall c :: c in after ==> c in before
  {
  }

  /** One turn more. */
  lemma KeepsGoing(log: Log, beats: seq<Beat>, start: nat, n: nat, tries: nat, from: nat, i: nat, b: BundleId,
                   bundle: Bundle, sidecars: map<BundleId, Doc>, f: Fairness)
    requires LogOk(log, beats, start, n, tries, b) && from <= i < n && tries > 0 && !log.turns[i].halted
    requires Acceptable(bundle.meta, bundle.bytes) && Quiet(log.states[n].net.server, beats, n, b)
    requires Fair(sidecars, beats, start, n, from, b, f) && Going(log, beats, from, i, b, bundle, f)
    ensures Going(log, beats, from, i + 1, b, bundle, f)
    ensures IsDone(SidecarsAt(log, i), b) ==> IsDone(SidecarsAt(log, i + 1), b)
    ensures Orderly(SidecarsAt(log, i), SidecarsAt(log, i + 1), log.turns[i])
  {
    hide Inv, TickDoes, Reaches, Orderly, InLine, Healthy, QuietTick, Acceptable, FairWindows, Serves, Bad, Quiet,
         IsDone;
    var t, tick := log.turns[i], beats[i].tick;
    assert TurnOk(log, beats, start, i, tries, b);
    OrderlyTurn(log, beats, start, n, i, tries, b);
    LaterOn(log, beats, start, n, tries, from, i, b, f);
    StaysInLine(SidecarsAt(log, i), SidecarsAt(log, i + 1), t, b, DueAt(log, from, i, b, f),
                DueAt(log, from, i + 1, b, f), f);
    TurnIsQuiet(log, beats, start, n, i, tries, b);
    TurnServes(log, beats, start, n, i, tries, b, bundle);
    var d := VisitAt(log, tick, i, tries, b);
    OwnId(log.states[i], b);
    ServedStaysHealthy(d, bundle);
    if Picks(t, b) && !Committed(log.states[i + 1].net.server, b) {
      PickIsOwn(log.states[i], log.states[i + 1], t, tick, i, tries, b);
      LossesAreBad(d, tick);
    }
  }

  lemma PickIsOwn(s: System, s': System, t: Turn, tick: Tick, nanos: nat, tries: nat, b: BundleId)
    requires TickDoes(s, s', t, tick, nanos, tries, b) && Picks(t, b) && tries > 0
    requires IsDrain(tick) ==> Smooth(tick.files)
    ensures IsDrain(tick) && t.next > 0
  {
  }

  lemma LaterOn(log: Log, beats: seq<Beat>, start: nat, n: nat, tries: nat, from: nat, i: nat, b: BundleId, f: Fairness)
    requires LogOk(log, beats, start, n, tries, b) && from <= i < n
    ensures var due, due' := DueAt(log, from, i, b, f), DueAt(log, from, i + 1, b, f);
            if Picks(log.turns[i], b) then due' >= log.turns[i].later + QUEUE_FAIL_BACKOFF else due' >= due
  {
    hide Inv, TickDoes, Reaches, StartTime, EndTime, Picks;
    assert TurnOk(log, beats, start, i, tries, b);
    assert PicksIn(log.turns, from, i + 1, b)
           == PicksIn(log.turns, from, i, b) + if Picks(log.turns[i], b) then 1 else 0;
    TimesRise(beats, start, i, i + 1);
    if i > 0 {
      assert TurnOk(log, beats, start, i - 1, tries, b);
      assert log.turns[i - 1].later <= log.turns[i].later;
    }
  }

  /** At the tick from which on the bundle is in the queue, all is as it should be. */
  lemma GoingAtFirst(log: Log, beats: seq<Beat>, start: nat, n: nat, tries: nat, from: nat, b: BundleId, bundle: Bundle,
                     f: Fairness)
    requires LogOk(log, beats, start, n, tries, b) && from <= n && forall i :: 0 <= i < n ==> !log.turns[i].halted
    requires Queued(log.states[0], beats, from, b, bundle) && Fair(SidecarsAt(log, 0), beats, start, n, from, b, f)
    ensures Going(log, beats, from, from, b, bundle, f)
  {
    hide Inv, TickDoes, Reaches, Orderly, Healthy, Acceptable, FairWindows, Competes;
    RivalsAtFirst(log, beats, start, n, tries, from, b, f);
    if from > 0 {
      assert TurnOk(log, beats, start, from - 1, tries, b);
      FoundIsInLine(log.states[from - 1], log.states[from], log.turns[from - 1], from - 1, tries, b, bundle);
    }
  }

  lemma FoundIsInLine(s: System, s': System, t: Turn, nanos: nat, tries: nat, b: BundleId, bundle: Bundle)
    requires TickDoes(s, s', t, Collects(Some(bundle), Moved, Completes), nanos, tries, b)
    requires Inv(s) && bundle.meta.bundle == b && b !in s.reg
    ensures Standing(s', b, bundle) && b in s'.disk.sidecars
    ensures s'.disk.sidecars[b] == Whole(Entry(bundle.meta, Pending, t.now))
  {
    hide Inv, Healthy;
    FreshIsHealthy(s, bundle.meta, bundle.bytes);
  }

  /** Before the bundle is there, what is in the queue and competes with it is a rival already. */
  lemma {:induction false} RivalsAtFirst(log: Log, beats: seq<Beat>, start: nat, n: nat, tries: nat, i: nat,
                                         b: BundleId, f: Fairness)
    requires LogOk(log, beats, start, n, tries, b) && i <= n && forall j :: 0 <= j < n ==> !log.turns[j].halted
    requires RivalsCover(SidecarsAt(log, 0), beats, start, n, b, f)
    requires forall j :: 0 <= j < n && IsDrain(beats[j].tick) ==> Smooth(beats[j].tick.files)
    ensures forall c :: c in SidecarsAt(log, i) && c != b && Competes(SidecarsAt(log, i)[c], f.enqueuedAt) ==>
              c in f.rivals
  {
    hide Inv, TickDoes, Reaches, Orderly, Smooth, Competes, StartTime, EndTime;
    if i > 0 {
      RivalsAtFirst(log, beats, start, n, tries, i - 1, b, f);
      OrderlyTurn(log, beats, start, n, i - 1, tries, b);
      assert TurnOk(log, beats, start, i - 1, tries, b);
      RivalsStay(SidecarsAt(log, i - 1), SidecarsAt(log, i), log.turns[i - 1], b, f);
    }
  }

  lemma RivalsStay(before: map<BundleId, Doc>, after: map<BundleId, Doc>, t: Turn, b: BundleId, f: Fairness)
    requires Orderly(before, after, t)
    requires forall c :: c in before && c != b && Competes(before[c], f.enqueuedAt) ==> c in f.rivals
    requires forall c :: c in after && c !in before && t.now <= f.enqueuedAt ==> c == b || c in f.rivals
    ensures forall c :: c in after && c != b && Competes(after[c], f.enqueuedAt) ==> c in f.rivals
  {
    forall c | c in after && c != b && Competes(after[c], f.enqueuedAt) ensures c in f.rivals {
      assert c in before ==> Competes(before[c], f.enqueuedAt);
    }
  }

  /** All turns long. */
  lemma {:induction false} GoesOn(log: Log, beats: seq<Beat>, start: nat, n: nat, tries: nat, from: nat, i: nat,
                                  b: BundleId, bundle: Bundle, f: Fairness)
    requires LogOk(log, beats, start, n, tries, b) && from <= i <= n && tries > 0
    requires forall j :: 0 <= j < n ==> !log.turns[j].halted
    requires Quiet(log.states[n].net.server, beats, n, b)
    requires Queued(log.states[0], beats, from, b, bundle) && Fair(SidecarsAt(log, 0), beats, start, n, from, b, f)
    ensures Going(log, beats, from, i, b, bundle, f)
    ensures i > from && IsDone(SidecarsAt(log, i - 1), b) ==> IsDone(SidecarsAt(log, i), b)
    ensures i > from ==> Orderly(SidecarsAt(log, i - 1), SidecarsAt(log, i), log.turns[i - 1])
    decreases i
  {
    hide TurnOk, Inv, Quiet, Fair, Going, IsDone, Orderly;
    if i == from {
      GoingAtFirst(log, beats, start, n, tries, from, b, bundle, f);
    } else {
      GoesOn(log, beats, start, n, tries, from, i - 1, b, bundle, f);
      KeepsGoing(log, beats, start, n, tries, from, i - 1, b, bundle, SidecarsAt(log, 0), f);
    }
  }

  lemma {:induction false} DrainsAreDrainTicks(log: Log, beats: seq<Beat>, start: nat, n: nat, tries: nat, lo: nat,
                                               hi: nat, b: BundleId)
    requires LogOk(log, beats, start, n, tries, b) && lo <= hi <= n
    requires forall i :: 0 <= i < n && IsDrain(beats[i].tick) ==> Smooth(beats[i].tick.files)
    requires forall j :: 0 <= j < n ==> !log.turns[j].halted
    ensures DrainsIn(log.turns, lo, hi) == DrainTicks(beats, lo, hi)
  {
    hide LogOk, Smooth, Orderly;
    if lo < hi {
      DrainsAreDrainTicks(log, beats, start, n, tries, lo, hi - 1, b);
      OrderlyTurn(log, beats, start, n, hi - 1, tries, b);
    }
  }

  lemma {:induction false} PicksAdd(turns: seq<Turn>, from: nat, i: nat, hi: nat, b: BundleId)
    requires from <= i <= hi <= |turns|
    ensures PicksIn(turns, from, i, b) <= PicksIn(turns, from, hi, b)
    ensures (exists j :: i <= j < hi && Picks(turns[j], b)) ==> PicksIn(turns, from, i, b) < PicksIn(turns, from, hi, b)
    decreases hi
  {
    if i < hi {
      PicksAdd(turns, from, i, hi - 1, b);
    }
  }

  /** In the stretch from one window to the end of the next some drain picks the bundle, unless it is done. */
  lemma WindowPicks(log: Log, beats: seq<Beat>, start: nat, n: nat, tries: nat, from: nat, a: nat, w: Window,
                    b: BundleId, bundle: Bundle, f: Fairness)
    requires LogOk(log, beats, start, n, tries, b) && from <= a <= w.lo && tries > 0
    requires forall j :: 0 <= j < n ==> !log.turns[j].halted
    requires Quiet(log.states[n].net.server, beats, n, b)
    requires Queued(log.states[0], beats, from, b, bundle) && Fair(SidecarsAt(log, 0), beats, start, n, from, b, f)
    requires FairWindow(beats, start, n, from, w, f.rivals)
    requires DueAt(log, from, a, b, f) <= StartTime(beats, start, w.lo)
    requires !IsDone(SidecarsAt(log, a), b)
    ensures PicksIn(log.turns, from, a, b) < PicksIn(log.turns, from, w.hi, b)
  {
    hide TurnOk, Inv, Quiet, Queued, Orderly, StartTime, EndTime, DrainTicks;
    PicksAdd(log.turns, from, a, w.hi, b);
    if forall j :: a <= j < w.hi ==> !Picks(log.turns[j], b) {
      StaysWaiting(log, beats, start, n, tries, from, a, w.lo, b, bundle, f);
      WindowIsOrderly(log, beats, start, n, tries, from, w, b, bundle, f);
      DrainsAreDrainTicks(log, beats, start, n, tries, w.lo, w.hi, b);
      NobodyStarves(log, w.lo, w.hi, b, f.rivals);
      assert false;
    }
  }

  /** Until it is picked it waits, due as before. */
  lemma {:induction false} StaysWaiting(log: Log, beats: seq<Beat>, start: nat, n: nat, tries: nat, from: nat, a: nat,
                                        i: nat, b: BundleId, bundle: Bundle, f: Fairness)
    requires LogOk(log, beats, start, n, tries, b) && from <= a <= i <= n && tries > 0
    requires forall j :: 0 <= j < n ==> !log.turns[j].halted
    requires Quiet(log.states[n].net.server, beats, n, b)
    requires Queued(log.states[0], beats, from, b, bundle) && Fair(SidecarsAt(log, 0), beats, start, n, from, b, f)
    requires !IsDone(SidecarsAt(log, a), b) && forall j :: a <= j < i ==> !Picks(log.turns[j], b)
    ensures DueBy(SidecarsAt(log, i), b, DueAt(log, from, a, b, f))
    ensures SidecarsAt(log, i)[b].entry.enqueuedAt == f.enqueuedAt
    decreases i
  {
    hide TurnOk, Inv, Quiet, Queued, Orderly, Fair;
    GoesOn(log, beats, start, n, tries, from, i, b, bundle, f);
    if a < i {
      StaysWaiting(log, beats, start, n, tries, from, a, i - 1, b, bundle, f);
      UnpickedStays(SidecarsAt(log, i - 1), SidecarsAt(log, i), log.turns[i - 1], b);
    }
  }

  lemma WindowIsOrderly(log: Log, beats: seq<Beat>, start: nat, n: nat, tries: nat, from: nat, w: Window, b: BundleId,
                        bundle: Bundle, f: Fairness)
    requires LogOk(log, beats, start, n, tries, b) && tries > 0
    requires forall j :: 0 <= j < n ==> !log.turns[j].halted
    requires Quiet(log.states[n].net.server, beats, n, b)
    requires Queued(log.states[0], beats, from, b, bundle) && Fair(SidecarsAt(log, 0), beats, start, n, from, b, f)
    requires FairWindow(beats, start, n, from, w, f.rivals)
    ensures OrderlyLog(log, w.lo, w.hi) && InOneWindow(log.turns, w.lo, w.hi)
    ensures log.turns[w.lo].now == StartTime(beats, start, w.lo)
    ensures RivalsAre(log, w.lo, w.hi, b, f.enqueuedAt, f.rivals)
  {
    hide Inv, TickDoes, Reaches, Quiet, Queued, Fair, Orderly, StartTime, EndTime, DrainTicks, Competes;
    forall i | w.lo <= i < w.hi
      ensures Orderly(SidecarsAt(log, i), SidecarsAt(log, i + 1), log.turns[i])
      ensures log.turns[i].now == StartTime(beats, start, i) >= StartTime(beats, start, w.lo)
      ensures InLine(SidecarsAt(log, i), b, DueAt(log, from, i, b, f), f)
    {
      GoesOn(log, beats, start, n, tries, from, i, b, bundle, f);
      GoesOn(log, beats, start, n, tries, from, i + 1, b, bundle, f);
      assert TurnOk(log, beats, start, i, tries, b);
      TimesRise(beats, start, w.lo, i);
    }
  }

  /** After j windows the bundle is done or has been picked at least j times. */
  lemma {:induction false} WindowsCount(log: Log, beats: seq<Beat>, start: nat, n: nat, tries: nat, from: nat, j: nat,
                                        b: BundleId, bundle: Bundle, f: Fairness) returns (h: nat)
    requires LogOk(log, beats, start, n, tries, b) && from <= n && tries > 0 && j <= |f.windows|
    requires forall i :: 0 <= i < n ==> !log.turns[i].halted
    requires Quiet(log.states[n].net.server, beats, n, b)
    requires Queued(log.states[0], beats, from, b, bundle) && Fair(SidecarsAt(log, 0), beats, start, n, from, b, f)
    ensures h == if j == 0 then from else f.windows[j - 1].hi
    ensures from <= h <= n && (IsDone(SidecarsAt(log, h), b) || PicksIn(log.turns, from, h, b) >= j)
  {
    hide TurnOk, Inv, Quiet, Queued, StartTime, EndTime, FairWindow, Spaced, IsDone;
    if j == 0 {
      h := from;
    } else {
      var a := WindowsCount(log, beats, start, n, tries, from, j - 1, b, bundle, f);
      var w := f.windows[j - 1];
      assert FairWindow(beats, start, n, from, w, f.rivals);
      h := w.hi;
      WindowFollows(log, beats, start, n, tries, from, a, j - 1, b, f);
      if IsDone(SidecarsAt(log, a), b) {
        DoneStays(log, beats, start, n, tries, from, a, h, b, bundle, f);
      } else {
        WindowPicks(log, beats, start, n, tries, from, a, w, b, bundle, f);
      }
    }
  }

  /** The next window begins when the bundle is due again. */
  lemma WindowFollows(log: Log, beats: seq<Beat>, start: nat, n: nat, tries: nat, from: nat, a: nat, j: nat,
                      b: BundleId, f: Fairness)
    requires LogOk(log, beats, start, n, tries, b) && Fair(SidecarsAt(log, 0), beats, start, n, from, b, f)
    requires j < |f.windows| && a == if j == 0 then from else f.windows[j - 1].hi
    ensures from <= a <= f.windows[j].lo < f.windows[j].hi <= n
    ensures PicksIn(log.turns, from, a, b) >= j ==>
              DueAt(log, from, a, b, f) <= StartTime(beats, start, f.windows[j].lo)
  {
    hide Inv, TickDoes, Reaches, StartTime, EndTime;
    assert FairWindow(beats, start, n, from, f.windows[j], f.rivals);
    if j > 0 {
      assert Spaced(beats, start, f.windows[j - 1], f.windows[j]);
      assert FairWindow(beats, start, n, from, f.windows[j - 1], f.rivals);
      assert TurnOk(log, beats, start, a - 1, tries, b);
    }
  }

  lemma {:induction false} DoneStays(log: Log, beats: seq<Beat>, start: nat, n: nat, tries: nat, from: nat, a: nat,
                                     i: nat, b: BundleId, bundle: Bundle, f: Fairness)
    requires LogOk(log, beats, start, n, tries, b) && from <= a <= i <= n && tries > 0
    requires forall j :: 0 <= j < n ==> !log.turns[j].halted
    requires Quiet(log.states[n].net.server, beats, n, b)
    requires Queued(log.states[0], beats, from, b, bundle) && Fair(SidecarsAt(log, 0), beats, start, n, from, b, f)
    requires IsDone(SidecarsAt(log, a), b)
    ensures IsDone(SidecarsAt(log, i), b)
    decreases i
  {
    hide TurnOk, Inv, Quiet, Queued, Orderly, Fair, IsDone;
    if a < i {
      DoneStays(log, beats, start, n, tries, from, a, i - 1, b, bundle, f);
      GoesOn(log, beats, start, n, tries, from, i, b, bundle, f);
    }
  }

  lemma DoneIsDelivered(s: System, b: BundleId)
    requires Inv(s) && b in s.reg && (IsDone(s.disk.sidecars, b) || Committed(s.net.server, b))
    ensures Delivered(s, b)
  {
    assert SessionsOk(s.reg, s.net.server);
  }

  /**
   A fair loop delivers: a bundle in the queue, on which nobody else works, is delivered if the schedule has more
   fair windows than drains in which anything is lost.
   */
  lemma LoopDelivers(log: Log, beats: seq<Beat>, start: nat, n: nat, tries: nat, from: nat, b: BundleId, bundle: Bundle,
                     f: Fairness)
    requires LogOk(log, beats, start, n, tries, b) && from <= n && tries > 0
    requires forall i :: 0 <= i < n ==> !log.turns[i].halted
    requires Queued(log.states[0], beats, from, b, bundle) && Fair(SidecarsAt(log, 0), beats, start, n, from, b, f)
    requires Quiet(log.states[n].net.server, beats, n, b) && |f.windows| > BadTicks(beats, from, n)
    ensures Delivered(log.states[n], b)
  {
    hide TurnOk, Inv, Quiet, Queued, Fair, Delivered, IsDone, BadTicks;
    var h := WindowsCount(log, beats, start, n, tries, from, |f.windows|, b, bundle, f);
    GoesOn(log, beats, start, n, tries, from, n, b, bundle, f);
    if IsDone(SidecarsAt(log, h), b) {
      DoneStays(log, beats, start, n, tries, from, h, n, b, bundle, f);
    } else {
      PicksAdd(log.turns, from, h, n, b);
    }
    DoneIsDelivered(log.states[n], b);
  }

  /** The turn delivered the bundle, and nothing failed in what it then did on the disk. */
  predicate Delivers(t: Turn, tick: Tick, c: BundleId) {
    && t.drained && t.accepted && t.selected == Some(c) && !t.halted && IsDrain(tick) && CanRecord(tick.files)
    && tick.files.checkRead == Fine && tick.files.removal == Removes
  }

  lemma DeliveryDropsZip(s: System, s': System, t: Turn, tick: Tick, nanos: nat, tries: nat, b: BundleId, c: BundleId)
    requires TickDoes(s, s', t, tick, nanos, tries, b) && Delivers(t, tick, c)
    ensures c in s'.reg && c !in s'.disk.zips && IsDone(s'.disk.sidecars, c)
  {
  }

  lemma NoZipComesBack(s: System, s': System, t: Turn, beat: Beat, nanos: nat, tries: nat, b: BundleId, c: BundleId)
    requires TickDoes(s, s', t, beat.tick, nanos, tries, b) && c in s.reg && c !in s.disk.zips
    requires Finds(beat) ==> FoundId(beat) !in s.reg
    ensures c !in s'.disk.zips
  {
  }

  /** The disk space of a delivered bundle is freed in the turn that delivers it and is never taken again. */
  lemma {:induction false} DeliveredZipStaysGone(log: Log, beats: seq<Beat>, start: nat, n: nat, i: nat, j: nat,
                                                 tries: nat, b: BundleId, c: BundleId)
    requires LogOk(log, beats, start, n, tries, b) && i < j <= n && Delivers(log.turns[i], beats[i].tick, c)
    ensures c in log.states[j].reg && c !in log.states[j].disk.zips
    decreases j
  {
    hide Inv, TickDoes, Reaches, StartTime, EndTime;
    assert TurnOk(log, beats, start, j - 1, tries, b);
    if j == i + 1 {
      DeliveryDropsZip(log.states[i], log.states[j], log.turns[i], beats[i].tick, i, tries, b, c);
    } else {
      DeliveredZipStaysGone(log, beats, start, n, i, j - 1, tries, b, c);
      TickRegisters(log.states[j - 1], log.states[j], log.turns[j - 1], beats[j - 1], j - 1, tries, b);
      NoZipComesBack(log.states[j - 1], log.states[j], log.turns[j - 1], beats[j - 1], j - 1, tries, b, c);
    }
  }

  /** The period of the drain ticks, in milliseconds. */
  const DRAIN_INTERVAL := 30_000

  /** A drain every thirty seconds. */
  ghost predicate Steady(beats: seq<Beat>, start: nat, n: nat)
    requires n <= |beats|
  {
    forall i :: 0 <= i < n ==>
      && IsDrain(beats[i].tick) && StartTime(beats, start, i) == start + DRAIN_INTERVAL * i
      && EndTime(beats, start, i + 1) <= StartTime(beats, start, i) + DRAIN_INTERVAL
  }

  /** Twenty drains every twenty minutes. */
  function EveryOtherPeriod(m: nat): seq<Window> {
    seq(m, j requires 0 <= j < m => Window(40 * j, 40 * j + 20))
  }

  /** With the agent's own interval there is a fair window every twenty minutes, for up to nineteen rivals. */
  lemma SteadyDrainsAreFair(beats: seq<Beat>, start: nat, n: nat, m: nat, f: Fairness)
    requires 40 * m <= n <= |beats| && Steady(beats, start, n)
    requires f.windows == EveryOtherPeriod(m) && |f.rivals| < 20 && f.due <= start
    ensures FairWindows(beats, start, n, 0, f)
  {
    hide StartTime, EndTime, DrainTicks;
    forall j | 0 <= j < m ensures FairWindow(beats, start, n, 0, f.windows[j], f.rivals) {
      AllTicksDrain(beats, start, n, 40 * j, 40 * j + 20);
    }
    forall j, k | 0 <= j < m && 0 <= k < m && k == j + 1 ensures Spaced(beats, start, f.windows[j], f.windows[k]) {
      var i := 40 * j + 19;
      assert EndTime(beats, start, i + 1) <= StartTime(beats, start, i) + DRAIN_INTERVAL;
      assert StartTime(beats, start, 40 * k) == start + DRAIN_INTERVAL * (40 * k);
    }
  }

  lemma {:induction false} AllTicksDrain(beats: seq<Beat>, start: nat, n: nat, lo: nat, hi: nat)
    requires lo <= hi <= n <= |beats| && Steady(beats, start, n)
    ensures DrainTicks(beats, lo, hi) == hi - lo
  {
    if lo < hi {
      AllTicksDrain(beats, start, n, lo, hi - 1);
      assert IsDrain(beats[hi - 1].tick);
    }
  }

  /**
   The loop until the schedule ends, the loop is stopped or the process halts. It does what its ticks do, in
   their order and at their times, loses no bundle, and reports to the config clock what it should; as nothing
   ever reports a failure, the rollback branch is never taken and no rollback is due afterwards. A bundle in the
   queue, on which nobody else works, is delivered if the schedule is fair to it and has more backoff windows
   than drains in which anything is lost.
   */
  method RunTaskLoop(agent: Agent, syncer: C.Syncer, beats: seq<Beat>, start: nat, ghost past: seq<C.Event>,
                     ghost b: BundleId, ghost from: nat, ghost fairness: Fairness)
    returns (halted: bool, n: nat, ghost history: seq<C.Event>, ghost log: Log)
    requires Inv(agent.State()) && Collectable(agent.reg, beats, 0) && Tracks(syncer, past, start)
    modifies agent`reg, agent.queue, agent.link, syncer
    ensures Inv(agent.State()) && Reaches(old(agent.State()), agent.State())
    ensures forall c :: c in old(agent.queue.sidecars) ==> Kept(agent.State(), c)
    ensures n <= |beats| && (n == |beats| || halted || (n > 0 && beats[n - 1].tick.Stops?))
    ensures forall i :: 0 <= i < n - 1 ==> !beats[i].tick.Stops?
    ensures LogOk(log, beats, start, n, agent.policy.maxAttempts, b)
    ensures log.states[0] == old(agent.State()) && log.states[n] == agent.State()
    ensures halted <==> n > 0 && log.turns[n - 1].halted
    ensures history == past + Reported(beats, start, n, halted) && Tracks(syncer, history, EndTime(beats, start, n))
    ensures !C.ShouldRollback(syncer.State(), EndTime(beats, start, n))
    ensures !halted && from <= n && agent.policy.maxAttempts > 0
            && Queued(log.states[0], beats, from, b, Owner(agent.reg, b))
            && Fair(log.states[0].disk.sidecars, beats, start, n, from, b, fairness)
            && Quiet(agent.link.net.server, beats, n, b) && |fairness.windows| > BadTicks(beats, from, n) ==>
              Delivered(agent.State(), b)
  {
    hide Inv, Reaches, C.Replay, C.ShouldRollback, Kept, Tracks, Collectable, TickDoes, Delivered, Fair, Quiet,
         BadTicks, Queued, LogOk, Reports, EndTime;
    ghost var s0, tries := agent.State(), agent.policy.maxAttempts;
    halted, n, history, log := false, 0, past, Log([s0], []);
    ReachesSelf(s0);
    EmptyLog(s0, beats, start, tries, b);
    var now, stopped := start, false;
    while n < |beats| && !halted && !stopped
      invariant n <= |beats| && Inv(agent.State()) && Reaches(s0, agent.State())
      invariant Collectable(agent.reg, beats, n)
      invariant now == EndTime(beats, start, n)
      invariant stopped <==> n > 0 && beats[n - 1].tick.Stops?
      invariant forall i :: 0 <= i < n - 1 ==> !beats[i].tick.Stops?
      invariant LogOk(log, beats, start, n, tries, b) && |log.turns| == n && |log.states| == n + 1
      invariant log.states[0] == s0 && log.states[n] == agent.State()
      invariant forall i :: 0 <= i < n - 1 ==> !log.turns[i].halted
      invariant halted <==> n > 0 && log.turns[n - 1].halted
      invariant history == past + Reported(beats, start, n, halted) && Tracks(syncer, history, now)
    {
      ghost var mid, seen, told := agent.State(), log, history;
      ghost var t;
      var begins := now + beats[n].elapsed;
      TracksLater(syncer, history, now, begins);
      NextTick(agent.reg, agent.reg, beats, n);
      halted, history, t := TakeTurn(agent, syncer, beats[n].tick, n, begins, history, b);
      now := begins + Lasts(beats[n].tick);
      ReachesOn(s0, mid, agent.State());
      TickRegisters(mid, agent.State(), t, beats[n], n, tries, b);
      NextTick(mid.reg, agent.reg, beats, n);
      log := Log(seen.states + [agent.State()], seen.turns + [t]);
      NewTurn(seen, log, mid, agent.State(), t, beats, start, n, tries, b);
      OneMoreReport(past, told, history, beats, start, n, halted);
      LogGrows(seen, agent.State(), t, beats, start, n, tries, b);
      stopped := beats[n].tick.Stops?;
      n := n + 1;
    }
    ReachableKeepsBundles(s0, agent.State());
    NoRollbackIsDue(syncer, history, now);
    if !halted && from <= n && tries > 0 && Queued(s0, beats, from, b, Owner(agent.reg, b))
       && Fair(s0.disk.sidecars, beats, start, n, from, b, fairness)
       && Quiet(agent.link.net.server, beats, n, b) && |fairness.windows| > BadTicks(beats, from, n) {
      LoopDelivers(log, beats, start, n, tries, from, b, Owner(agent.reg, b), fairness);
    }
  }
}
