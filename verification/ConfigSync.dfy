/**
 Server-pushed config overrides and the clock that rolls a bad one back.

 One clock stands for both the monotonic and the wall clock; a restart reloads the failure time
 from the state file, unless it lies in the future or further back than the monotonic clock reaches.
 */
module ConfigSync {
  import opened Wrappers

  /** Milliseconds. */
  type Time = int

  const ROLLBACK_THRESHOLD := 24 * 3600 * 1000

  datatype Override = Override(
    logLevel: Option<string>,
    requestTimeoutSecs: Option<nat>,
    evidenceSchedule: Option<string>,
    queueMaxBundles: Option<nat>,
    logPaths: Option<seq<string>>)

  /** The fields an override must never touch, kept together. */
  datatype Protected = Protected(
    apiEndpoint: string, deviceId: string, clientCert: Option<string>, clientKey: Option<string>,
    caBundle: Option<string>, redaction: string, collection: string)

  datatype AgentConfig = AgentConfig(
    fixed: Protected, logLevel: string, requestTimeoutSecs: nat, evidenceSchedule: string,
    queueMaxBundles: nat, logPaths: seq<string>)

  function OrElse<T>(o: Option<T>, otherwise: T): T {
    if o.Some? then o.value else otherwise
  }

  /** A field is as overridden, or the local one where nothing is said. */
  predicate Takes<T(==)>(field: T, local: T, over: Option<T>) {
    match over
    case Some(value) => field == value
    case None => field == local
  }

  function MergeOverride(base: AgentConfig, over: Override): AgentConfig {
    AgentConfig(base.fixed, OrElse(over.logLevel, base.logLevel),
                OrElse(over.requestTimeoutSecs, base.requestTimeoutSecs),
                OrElse(over.evidenceSchedule, base.evidenceSchedule),
                OrElse(over.queueMaxBundles, base.queueMaxBundles), OrElse(over.logPaths, base.logPaths))
  }

  /** Merging changes a field only to what the override says, and drops nothing that it says. */
  lemma MergeIsFieldwise(base: AgentConfig, over: Override)
    ensures var merged := MergeOverride(base, over);
            && merged.fixed == base.fixed && MergeOverride(merged, over) == merged
            && (merged == base <==>
                 && over.logLevel in {None, Some(base.logLevel)}
                 && over.requestTimeoutSecs in {None, Some(base.requestTimeoutSecs)}
                 && over.evidenceSchedule in {None, Some(base.evidenceSchedule)}
                 && over.queueMaxBundles in {None, Some(base.queueMaxBundles)}
                 && over.logPaths in {None, Some(base.logPaths)})
            && (over == Override(Some(merged.logLevel), Some(merged.requestTimeoutSecs), Some(merged.evidenceSchedule),
                                 Some(merged.queueMaxBundles), Some(merged.logPaths)) <==>
                 over.logLevel.Some? && over.requestTimeoutSecs.Some? && over.evidenceSchedule.Some?
                 && over.queueMaxBundles.Some? && over.logPaths.Some?)
  {
  }

  /** What the config endpoint answered; no body when it cannot be decoded or fails validation. */
  datatype Response = Unreachable | Answer(status: nat, body: Option<Override>)

  /** Everything but a usable override counts as "no override". */
  function Fetched(resp: Response): Option<Override> {
    match resp
    case Unreachable => None
    case Answer(status, body) => if status == 200 then body else None
  }

  /** The state file; `None` inside says it was written with no failure on record. */
  datatype StateFile = Missing | Saved(firstFailure: Option<Time>)

  datatype SyncState = SyncState(applied: Option<Override>, firstFailure: Option<Time>, file: StateFile)

  const INITIAL := SyncState(None, None, Missing)

  /** `saved` tells whether the best-effort write of the state file, if any, succeeded. */
  datatype Action =
    | Sync(fetched: Option<Override>, saved: bool)
    | Success(saved: bool)
    | Failure(saved: bool)
    | Rollback(saved: bool)
    | Restart(reaches: bool)

  datatype Event = Event(time: Time, action: Action)

  function Persist(s: SyncState, saved: bool): SyncState {
    if saved then s.(file := Saved(s.firstFailure)) else s
  }

  function ClearClock(s: SyncState, saved: bool): SyncState {
    if s.firstFailure.Some? then Persist(s.(firstFailure := None), saved) else s
  }

  /** The failure time a start finds in the state file. */
  function Loaded(file: StateFile, now: Time, reaches: bool): Option<Time> {
    if file.Saved? && file.firstFailure.Some? && file.firstFailure.value <= now && reaches then file.firstFailure
    else None
  }

  function Step(s: SyncState, e: Event): SyncState {
    match e.action
    case Sync(fetched, saved) =>
      if fetched == s.applied then s else ClearClock(s.(applied := fetched), saved)
    case Success(saved) => ClearClock(s, saved)
    case Failure(saved) =>
      if s.applied.Some? && s.firstFailure.None? then Persist(s.(firstFailure := Some(e.time)), saved) else s
    case Rollback(saved) => Persist(s.(applied := None, firstFailure := None), saved)
    case Restart(reaches) => SyncState(None, Loaded(s.file, e.time, reaches), s.file)
  }

  /** The state after a history of events. */
  function Replay(h: seq<Event>): SyncState {
    if h == [] then INITIAL else Step(Replay(h[..|h| - 1]), h[|h| - 1])
  }

  predicate ShouldRollback(s: SyncState, now: Time) {
    s.applied.Some? && s.firstFailure.Some? && now - s.firstFailure.value >= ROLLBACK_THRESHOLD
  }

  /** The agent's object: every method is one action of the state machine. */
  class Syncer {
    const local: AgentConfig
    var applied: Option<Override>
    var firstFailure: Option<Time>
    var lastSuccess: Option<Time>
    var file: StateFile

    function State(): SyncState
      reads this
    {
      SyncState(applied, firstFailure, file)
    }

    /** Starts with the failure time the state file still holds, if it is not dropped. */
    constructor (local: AgentConfig, file: StateFile, now: Time, reaches: bool)
      ensures this.local == local && EffectiveConfig() == local
      ensures forall t :: firstFailure == Some(t) <==> file == Saved(Some(t)) && t <= now && reaches
      ensures forall s: SyncState :: s.file == file ==> State() == Step(s, Event(now, Restart(reaches)))
    {
      this.local := local;
      this.file := file;
      applied, lastSuccess := None, None;
      firstFailure := Loaded(file, now, reaches);
    }

    /** Writes the failure clock to the state file; `saves` tells whether the write succeeds. */
    method PersistState(saves: bool)
      modifies this`file
      ensures State() == Persist(old(State()), saves)
    {
      if saves {
        file := Saved(firstFailure);
      }
    }

    function EffectiveConfig(): (c: AgentConfig)
      reads this
      ensures c.fixed == local.fixed
      ensures applied.None? ==> c == local
      ensures applied.Some? ==>
                var over := applied.value;
                && Takes(c.logLevel, local.logLevel, over.logLevel)
                && Takes(c.requestTimeoutSecs, local.requestTimeoutSecs, over.requestTimeoutSecs)
                && Takes(c.evidenceSchedule, local.evidenceSchedule, over.evidenceSchedule)
                && Takes(c.queueMaxBundles, local.queueMaxBundles, over.queueMaxBundles)
                && Takes(c.logPaths, local.logPaths, over.logPaths)
    {
      if applied.Some? then MergeOverride(local, applied.value) else local
    }

    method Sync(resp: Response, now: Time, saves: bool) returns (effective: AgentConfig)
      modifies this`applied, this`firstFailure, this`file
      ensures State() == Step(old(State()), Event(now, Action.Sync(Fetched(resp), saves)))
      ensures applied == if resp.Answer? && resp.status == 200 then resp.body else None
      ensures effective == EffectiveConfig() && lastSuccess == old(lastSuccess)
    {
      var fetched := Fetched(resp);
      var dirty := false;
      if fetched.Some? {
        var isNew := applied != fetched;
        if isNew {
          applied := fetched;
          if firstFailure.Some? {
            firstFailure, dirty := None, true;
          }
        }
      } else if applied.Some? {
        applied := None;
        if firstFailure.Some? {
          firstFailure, dirty := None, true;
        }
      }
      if dirty {
        PersistState(saves);
      }
      effective := EffectiveConfig();
    }

    method RecordSuccess(now: Time, saves: bool)
      modifies this`firstFailure, this`lastSuccess, this`file
      ensures State() == Step(old(State()), Event(now, Success(saves))) && lastSuccess == Some(now)
      ensures firstFailure == None && applied == old(applied)
    {
      lastSuccess := Some(now);
      if firstFailure.Some? {
        firstFailure := None;
        PersistState(saves);
      }
    }

    method RecordFailure(now: Time, saves: bool)
      modifies this`firstFailure, this`file
      ensures State() == Step(old(State()), Event(now, Failure(saves)))
    {
      if applied.Some? && firstFailure.None? {
        firstFailure := Some(now);
        PersistState(saves);
      }
    }

    method RollBack(now: Time, saves: bool)
      modifies this`applied, this`firstFailure, this`file
      ensures State() == Step(old(State()), Event(now, Rollback(saves)))
      ensures EffectiveConfig() == local
    {
      applied, firstFailure := None, None;
      PersistState(saves);
    }
  }

  // ---------------------------------------------------------------------------------------------
  // When a rollback is due
  // ---------------------------------------------------------------------------------------------

  /** An action after which earlier failures no longer count. */
  predicate Disturbs(s: SyncState, a: Action) {
    match a
    case Sync(fetched, _) => fetched != s.applied
    case Success(_) => true
    case Failure(_) => false
    case Rollback(_) => true
    case Restart(_) => true
  }

  predicate Ordered(h: seq<Event>) {
    forall i, j :: 0 <= i < j < |h| ==> h[i].time <= h[j].time
  }

  /** Event i is a failure under an override that nothing has disturbed since. */
  ghost predicate StandingFailure(h: seq<Event>, i: nat)
    requires i < |h|
  {
    && h[i].action.Failure? && Replay(h[..i]).applied.Some?
    && forall j :: i < j < |h| ==> !Disturbs(Replay(h[..j]), h[j].action)
  }

  lemma StandingFailureExtends(h: seq<Event>, i: nat)
    requires h != [] && i < |h| - 1
    ensures StandingFailure(h, i)
       <==> StandingFailure(h[..|h| - 1], i) && !Disturbs(Replay(h[..|h| - 1]), h[|h| - 1].action)
  {
    var init := h[..|h| - 1];
    assert forall j :: 0 <= j < |h| ==> init[..if j < |h| - 1 then j else |h| - 1] == h[..j];
  }

  /** What an action that disturbs nothing does to the clock of an applied override, and what any other does. */
  lemma ClockStep(s: SyncState, e: Event)
    requires Step(s, e).applied.Some?
    ensures Disturbs(s, e.action) ==> Step(s, e).firstFailure.None?
    ensures !Disturbs(s, e.action) ==>
              && s.applied.Some?
              && Step(s, e).firstFailure
                 == if s.firstFailure.None? && e.action.Failure? then Some(e.time) else s.firstFailure
  {
  }

  /** With an override applied, the clock holds exactly the time of the oldest standing failure. */
  lemma {:induction false} ClockIsOldestStandingFailure(h: seq<Event>)
    requires Ordered(h) && Replay(h).applied.Some?
    ensures Replay(h).firstFailure.Some? ==>
              exists i :: 0 <= i < |h| && StandingFailure(h, i) && h[i].time == Replay(h).firstFailure.value
    ensures forall i :: 0 <= i < |h| && StandingFailure(h, i) ==>
              Replay(h).firstFailure.Some? && Replay(h).firstFailure.value <= h[i].time
  {
    hide Step, Disturbs;
    var init, before, last := h[..|h| - 1], Replay(h[..|h| - 1]), h[|h| - 1];
    ClockStep(before, last);
    forall i: nat | i < |h| - 1
      ensures StandingFailure(h, i) <==> StandingFailure(init, i) && !Disturbs(before, last.action)
    {
      StandingFailureExtends(h, i);
    }
    LastStandsIff(h);
    hide StandingFailure;
    if !Disturbs(before, last.action) {
      ClockIsOldestStandingFailure(init);
      if before.firstFailure.Some? {
        var i :| 0 <= i < |init| && StandingFailure(init, i) && init[i].time == before.firstFailure.value;
        assert StandingFailure(h, i) && h[i].time == before.firstFailure.value;
      }
    }
  }

  /** The last event stands exactly when it is a failure under an override, and then it disturbs nothing. */
  lemma LastStandsIff(h: seq<Event>)
    requires h != []
    ensures StandingFailure(h, |h| - 1) <==> h[|h| - 1].action.Failure? && Replay(h[..|h| - 1]).applied.Some?
    ensures StandingFailure(h, |h| - 1) ==> !Disturbs(Replay(h[..|h| - 1]), h[|h| - 1].action)
  {
  }

  /** Every write of the state file succeeds. */
  predicate AllSaved(h: seq<Event>) {
    forall i :: 0 <= i < |h| && !h[i].action.Restart? ==> h[i].action.saved
  }

  predicate NoRestart(h: seq<Event>) {
    forall i :: 0 <= i < |h| ==> !h[i].action.Restart?
  }

  /** A running clock is always on file, and before the first restart so is one that was cleared. */
  lemma {:induction false} ClockIsOnFile(h: seq<Event>)
    requires AllSaved(h)
    ensures var s := Replay(h);
            && (s.firstFailure.Some? ==> s.file == Saved(s.firstFailure))
            && (NoRestart(h) ==> s.file == Saved(s.firstFailure) || (s.file == Missing && s.firstFailure == None))
  {
    if h != [] {
      ClockIsOnFile(h[..|h| - 1]);
    }
  }

  /** Before the first restart the clock runs only under an override. */
  lemma {:induction false} NoClockWithoutOverride(h: seq<Event>)
    requires NoRestart(h) && Replay(h).applied.None?
    ensures Replay(h).firstFailure.None?
  {
    if h != [] && Replay(h[..|h| - 1]).applied.None? {
      NoClockWithoutOverride(h[..|h| - 1]);
    }
  }

  /**
   A restart by itself takes the clock over as it was, if every write of it succeeded, the wall clock was not set back
   and the monotonic clock reaches far enough; what loses it is the sync that follows.
   */
  lemma ClockIsReloaded(h: seq<Event>, now: Time)
    requires AllSaved(h) && (Replay(h).firstFailure.Some? ==> Replay(h).firstFailure.value <= now)
    requires Replay(h).firstFailure.Some? || NoRestart(h)
    ensures Replay(h + [Event(now, Restart(true))]).firstFailure == Replay(h).firstFailure
  {
    assert (h + [Event(now, Restart(true))])[..|h|] == h;
    ClockIsOnFile(h);
  }

  /**
   A rollback is due exactly when some failure at least 24 hours old happened under the override
   that is applied now and since then there was no success, rollback, override change or restart.
   */
  lemma RollbackIsDueIff(h: seq<Event>, now: Time)
    requires Ordered(h)
    ensures ShouldRollback(Replay(h), now)
       <==> Replay(h).applied.Some?
            && exists i :: 0 <= i < |h| && StandingFailure(h, i) && now - h[i].time >= 86_400_000
  {
    if Replay(h).applied.Some? {
      ClockIsOldestStandingFailure(h);
    }
  }

  /** The applied override has been the same ever since a standing failure. */
  lemma {:induction false} StandingFailureKeepsOverride(h: seq<Event>, i: nat)
    requires i < |h| && StandingFailure(h, i)
    ensures Replay(h).applied == Replay(h[..i]).applied
    decreases |h|
  {
    var init := h[..|h| - 1];
    if i < |h| - 1 {
      StandingFailureExtends(h, i);
      StandingFailureKeepsOverride(init, i);
      assert init[..i] == h[..i];
    } else {
      assert init == h[..i];
    }
  }

  /** Since the failure that justifies a rollback, every config fetch has answered with the same override. */
  predicate SteadySince(h: seq<Event>, i: nat, applied: Option<Override>) {
    forall j :: i < j < |h| && h[j].action.Sync? ==> h[j].action.fetched == applied
  }

  /**
   An outage of the config endpoint is no reason for a rollback but rules it out: a fetch that fails
   counts as "no override", so a rollback needs an endpoint that kept answering all along.
   */
  lemma RollbackNeedsSteadyServer(h: seq<Event>, now: Time)
    requires Ordered(h) && ShouldRollback(Replay(h), now)
    ensures exists i :: 0 <= i < |h| && StandingFailure(h, i) && now - h[i].time >= ROLLBACK_THRESHOLD
                        && SteadySince(h, i, Replay(h).applied)
  {
    hide Step, Replay, StandingFailure, Disturbs;
    RollbackIsDueIff(h, now);
    var i: nat :| i < |h| && StandingFailure(h, i) && now - h[i].time >= ROLLBACK_THRESHOLD;
    forall j: nat | i < j < |h| && h[j].action.Sync?
      ensures h[j].action.fetched == Replay(h).applied
    {
      SyncKeepsStanding(h, i, j);
    }
    assert SteadySince(h, i, Replay(h).applied);
  }

  /** A sync after a standing failure fetched the override that was applied and still is. */
  lemma SyncKeepsStanding(h: seq<Event>, i: nat, j: nat)
    requires i < j < |h| && StandingFailure(h, i) && h[j].action.Sync?
    ensures h[j].action.fetched == Replay(h).applied
  {
    var init := h[..j];
    StandingBefore(h, i, j);
    hide Step, Replay;
    StandingFailureKeepsOverride(h, i);
    StandingFailureKeepsOverride(init, i);
    assert init[..i] == h[..i];
    assert !Disturbs(Replay(init), h[j].action);
  }

  lemma StandingBefore(h: seq<Event>, i: nat, j: nat)
    requires i < j <= |h| && StandingFailure(h, i)
    ensures StandingFailure(h[..j], i)
  {
    hide Step, Replay, Disturbs;
    assert forall k :: 0 <= k <= j ==> h[..j][..k] == h[..k];
  }

  /**
   The persisted clock does not outlive a restart: whatever failures came before it, no rollback is
   due afterwards until a failure is recorded again.
   */
  lemma RestartForgetsFailures(before: seq<Event>, restart: Event, since: seq<Event>, now: Time)
    requires Ordered(before + [restart] + since) && restart.action.Restart?
    requires forall e :: e in since ==> !e.action.Failure?
    ensures !ShouldRollback(Replay(before + [restart] + since), now)
  {
    var h := before + [restart] + since;
    RollbackIsDueIff(h, now);
    forall i: nat | i < |h| ensures !StandingFailure(h, i) {
      if i < |before| {
        assert h[|before|] == restart;
      } else if i > |before| {
        assert h[i] == since[i - |before| - 1] && h[i] in since;
      }
    }
  }

  /** A crash loop is enough to keep a failing override for ever, against the module's documentation. */
  lemma CrashLoopKeepsOverride(over: Override, now: Time)
    ensures var h := [Event(0, Sync(Some(over), true)), Event(0, Failure(true)), Event(0, Restart(true)),
                      Event(0, Sync(Some(over), true))];
            Ordered(h) && Replay(h).applied == Some(over) && !ShouldRollback(Replay(h), now)
            && ShouldRollback(Replay(h[..2]), ROLLBACK_THRESHOLD)
  {
    var h := [Event(0, Sync(Some(over), true)), Event(0, Failure(true)), Event(0, Restart(true)),
              Event(0, Sync(Some(over), true))];
    assert h[..3][..2] == h[..2] && h[..2][..1] == h[..1] && h[..1][..0] == [];
    assert h[..4] == h;
    assert Replay(h[..1]) == Step(INITIAL, h[0]);
    assert Replay(h[..2]) == Step(Replay(h[..1]), h[1]);
    assert Replay(h[..3]) == Step(Replay(h[..2]), h[2]);
    assert Replay(h) == Step(Replay(h[..3]), h[3]);
  }

  /** Where failures are never recorded, no rollback is ever due. */
  lemma NoFailureNoRollback(h: seq<Event>, now: Time)
    requires Ordered(h) && forall e :: e in h ==> !e.action.Failure?
    ensures !ShouldRollback(Replay(h), now)
  {
    RollbackIsDueIff(h, now);
  }
}
