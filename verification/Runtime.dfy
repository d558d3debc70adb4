/** The agent's task loop: collect and enqueue, drain one bundle per tick, recover on start. */
module Runtime {
  import opened Encoding
  import opened Wrappers
  import opened Sets
  import opened Ingest
  import opened Network
  import opened View
  import opened BundleQueue
  import opened Delivery
  import F = Fates
  import U = Uploader

  /** Backoff after a failed upload, in milliseconds. */
  const QUEUE_FAIL_BACKOFF := 600_000

  /**
   One turn of the task loop. The clock reads `now` when it starts and `later` when it ends. Of a drain it says
   which bundle was selected, whether the upload was taken for a success, and the exchange it ended before.
   */
  datatype Turn = Turn(
    now: Time,
    later: Time,
    drained: bool,
    selected: Option<BundleId>,
    accepted: bool,
    next: nat,
    halted: bool)

  /** What a drain writes into the sidecar of the bundle that it uploaded. */
  function Recorded(e: Entry, accepted: bool, later: Time): Entry {
    e.(state := if accepted then Done(later) else Failed(1, later + QUEUE_FAIL_BACKOFF))
  }

  /** The entry that was selected, if there is one, is now done or failed, and nothing else changed. */
  predicate RecordsOutcome(before: map<BundleId, Doc>, after: map<BundleId, Doc>, t: Turn) {
    match t.selected
    case None => after == before
    case Some(b) =>
      b in before && before[b].Whole? && after == before[b := Whole(Recorded(before[b].entry, t.accepted, t.later))]
  }

  /** The oldest eligible entry was taken and is now done or failed, and nothing else changed. */
  predicate SmoothDrain(before: map<BundleId, Doc>, after: map<BundleId, Doc>, t: Turn) {
    match t.selected
    case None => after == before && NoneEligible(before, t.now)
    case Some(b) =>
      && b in before && before[b].Whole? && Eligible(before[b].entry, t.now) && Oldest(before, before[b].entry, t.now)
      && after == before[b := Whole(Recorded(before[b].entry, t.accepted, t.later))]
  }

  /** The bundle has a sidecar that does not say done. */
  predicate Open(sidecars: map<BundleId, Doc>, b: BundleId) {
    b in sidecars && sidecars[b].Whole? && !sidecars[b].entry.state.Done?
  }

  predicate IsDone(sidecars: map<BundleId, Doc>, b: BundleId) {
    b in sidecars && sidecars[b].Whole? && sidecars[b].entry.state.Done?
  }

  /** No eligible entry is older than e. */
  predicate Oldest(sidecars: map<BundleId, Doc>, e: Entry, now: Time) {
    forall c :: c in sidecars && sidecars[c].Whole? && Eligible(sidecars[c].entry, now) ==>
      e.enqueuedAt <= sidecars[c].entry.enqueuedAt
  }

  predicate NoneEligible(sidecars: map<BundleId, Doc>, now: Time) {
    forall c :: c in sidecars && sidecars[c].Whole? ==> !Eligible(sidecars[c].entry, now)
  }

  /** Not to be picked again before the given time. */
  predicate Parked(state: QueueState, until: Time) {
    match state
    case Done(_) => true
    case Failed(_, retryAt) => retryAt >= until
    case _ => false
  }

  /** How the file-system calls of a drain go. */
  datatype DrainCourse = DrainCourse(
    dir: Io,
    unreadable: set<BundleId>,
    claimRead: Io,
    claimWrite: Write,
    zipReadable: bool,
    recordRead: Io,
    recordWrite: Write,
    checkRead: Io,
    removal: Removal)

  predicate CanClaim(f: DrainCourse) {
    f.dir == Fine && f.claimRead == Fine && f.claimWrite == Completes
  }

  /** The sidecar can be written both times. */
  predicate CanRecord(f: DrainCourse) {
    CanClaim(f) && f.recordRead == Fine && f.recordWrite == Completes
  }

  /** No file-system call that matters to the queue's order fails. */
  predicate Smooth(f: DrainCourse) {
    CanRecord(f) && f.unreadable == {}
  }

  /** The process stops while the outcome is recorded or, where it says done, the zip is removed. */
  predicate StopsSettling(f: DrainCourse, done: bool) {
    || f.recordRead == Crashed || (f.recordRead == Fine && f.recordWrite.Dies?) || f.checkRead == Crashed
    || (f.checkRead == Fine && done && f.removal.DiesRemoving?)
  }

  /** The process stops while the queue is read or the selected entry is marked as uploading. */
  predicate StopsClaiming(f: DrainCourse, selected: Option<BundleId>) {
    || f.dir == Crashed
    || (selected.Some? && (f.claimRead == Crashed || (f.claimRead == Fine && f.claimWrite.Dies?)))
  }

  /** The process stops in one of the file-system calls of the drain; `done` is what the sidecar says in the end. */
  predicate StopsOnDisk(f: DrainCourse, selected: Option<BundleId>, done: bool) {
    StopsClaiming(f, selected) || (selected.Some? && CanClaim(f) && StopsSettling(f, done))
  }

  /**
   What a drain leaves of the zips: that of the selected bundle goes if its sidecar says done, the process got past
   writing that, and the sidecar can be read again; all others stay.
   */
  function ZipsAfter(zips: map<BundleId, Bytes>, selected: Option<BundleId>, sidecars: map<BundleId, Doc>,
                     f: DrainCourse): map<BundleId, Bytes> {
    if selected.Some? && IsDone(sidecars, selected.value) && !f.recordWrite.Dies? && f.checkRead == Fine
    then Removed(zips, selected.value, f.removal) else zips
  }

  /** An entry that was marked as uploading and whose outcome could not be recorded keeps that mark. */
  predicate StaysMarked(before: map<BundleId, Doc>, after: map<BundleId, Doc>, selected: Option<BundleId>) {
    match selected
    case None => after == before
    case Some(b) =>
      b in before && before[b].Whole? && after == before[b := Whole(before[b].entry.(state := Uploading))]
  }

  /** The oldest eligible bundle among those whose sidecar can be read, if there is one. */
  predicate Selects(sidecars: map<BundleId, Doc>, unreadable: set<BundleId>, now: Time, selected: Option<BundleId>) {
    match selected
    case Some(b) =>
      && Readable(sidecars, unreadable, b) && Eligible(sidecars[b].entry, now)
      && forall c :: c in sidecars && Readable(sidecars, unreadable, c) && Eligible(sidecars[c].entry, now) ==>
           sidecars[b].entry.enqueuedAt <= sidecars[c].entry.enqueuedAt
    case None =>
      forall c :: c in sidecars && Readable(sidecars, unreadable, c) ==> !Eligible(sidecars[c].entry, now)
  }

  /** Sidecar and zip of the bundle are as they were. */
  predicate SameFiles(d: Disk, d': Disk, b: BundleId) {
    && (b in d.sidecars <==> b in d'.sidecars) && (b in d.sidecars ==> d'.sidecars[b] == d.sidecars[b])
    && (b in d.zips <==> b in d'.zips) && (b in d.zips ==> d'.zips[b] == d.zips[b])
  }

  /** Taking a bundle in: a zip that was moved belongs to the bundle, and its sidecar is written after that. */
  ghost function Collecting(s: System, found: Option<Bundle>, nanos: nat, now: Time, move: Move, w: Write): System {
    match found
    case None => s
    case Some(Bundle(meta, bytes)) =>
      var d := s.disk.(zips := AfterMove(s.disk.zips, meta.bundle, bytes, move));
      if move != Moved then s.(disk := d)
      else System(s.reg[meta.bundle := Bundle(meta, bytes)],
                  SaveSidecar(d, meta.bundle, nanos, Entry(meta, Pending, now), CutOf(w)), s.net)
  }

  predicate DiesCollecting(found: Option<Bundle>, move: Move, w: Write) {
    found.Some? && if move == Moved then w.Dies? else move.dies
  }

  /** A drain as one bundle sees it: an attempt of that bundle, or of another one or none. */
  datatype Visit = Visit(own: bool, attempt: U.Attempt)

  function VisitOf(s: System, s': System, t: Turn, readable: bool, world: F.World, at: nat, tries: nat, b: BundleId):
    Visit
  {
    Visit(t.selected == Some(b) && t.next > at,
          U.Attempt(s.net.server, s'.net.server, t.accepted, readable, world, at, t.next, tries))
  }

  /** The drain is an attempt of the bundle, or leaves the server's view of it alone. */
  ghost predicate Serves(d: Visit, meta: Meta, bytes: Bytes) {
    if d.own then Healthy(d.attempt.before, meta, bytes) ==> U.IsAttempt(d.attempt, meta, bytes)
    else SameView(d.attempt.before, d.attempt.after, meta.bundle)
  }

  lemma NoVisit(s: System, s': System, t: Turn, readable: bool, world: F.World, at: nat, tries: nat, reg: Registry,
                b: BundleId)
    requires s'.net == s.net && t.next == at
    ensures b in reg ==> Serves(VisitOf(s, s', t, readable, world, at, tries, b), reg[b].meta, reg[b].bytes)
  {
  }

  /** However far it gets: the entry is as it was, marked as uploading, or finished with. */
  predicate GetsAsFar(before: map<BundleId, Doc>, after: map<BundleId, Doc>, t: Turn, f: DrainCourse) {
    if t.selected.None? || f.claimRead != Fine || CutOf(f.claimWrite) != Renamed then after == before
    else
      || StaysMarked(before, after, t.selected)
      || (f.recordRead == Fine && CutOf(f.recordWrite) == Renamed && RecordsOutcome(before, after, t))
  }

  /** The sidecar of the selected bundle says done in the end. */
  predicate Finished(s': System, t: Turn) {
    t.selected.Some? && IsDone(s'.disk.sidecars, t.selected.value)
  }

  /**
   What a drain does. It changes no file but the selected bundle's, and never marks done a bundle the server
   had already committed: the acknowledgement that one missed is not repeated. To any bundle b it is an attempt
   of that bundle or leaves the server's view of it alone, unless the server works on b for someone else
   meanwhile. If its own file operations succeed it takes the oldest eligible entry and records the outcome. The
   zip of a bundle that was marked done goes, unless the sidecar cannot be read again or the removal fails. The
   process stops exactly where a file-system call stops it, or in an exchange.
   */
  ghost predicate DrainDoes(s: System, s': System, t: Turn, f: DrainCourse, world: F.World, at: nat, tries: nat,
                            b: BundleId) {
    && t.drained && at <= t.next && s'.reg == s.reg
    && (t.halted ==> StopsOnDisk(f, t.selected, Finished(s', t)) || F.DiesAt(world, at, t.next))
    && (StopsOnDisk(f, t.selected, Finished(s', t)) ==> t.halted)
    && s'.disk.zips == ZipsAfter(s.disk.zips, t.selected, s'.disk.sidecars, f)
    && (forall c: BundleId :: t.selected != Some(c) ==> SameFiles(s.disk, s'.disk, c))
    && (forall c: BundleId :: Open(s.disk.sidecars, c) && Committed(s.net.server, c) ==> Open(s'.disk.sidecars, c))
    && (f.dir == Fine ==> Selects(s.disk.sidecars, f.unreadable, t.now, t.selected))
    && (t.selected.Some? ==> t.selected.value in s.reg && Open(s.disk.sidecars, t.selected.value))
    && (t.selected.None? ==> s'.net == s.net && t.next == at)
    && (!CanClaim(f) ==> s'.net == s.net && t.next == at)
    && (CanRecord(f) && !t.halted ==> RecordsOutcome(s.disk.sidecars, s'.disk.sidecars, t))
    && (CanClaim(f) && !CanRecord(f) && !t.halted ==> StaysMarked(s.disk.sidecars, s'.disk.sidecars, t.selected))
    && (f.dir != Fine ==> t.selected.None?) && GetsAsFar(s.disk.sidecars, s'.disk.sidecars, t, f)
    && (Smooth(f) && !t.halted ==> SmoothDrain(s.disk.sidecars, s'.disk.sidecars, t))
    && (Smooth(f) && t.selected.Some? && tries > 0 ==> t.next > at)
    && (tries > 0 && U.Calm(s'.net.server, world, at, t.next, b)
        && b in s.reg && Acceptable(s.reg[b].meta, s.reg[b].bytes) ==>
          Serves(VisitOf(s, s', t, f.zipReadable, world, at, tries, b), s.reg[b].meta, s.reg[b].bytes))
  }

  /** The state stays reachable, valid, and holds every bundle there was. */
  lemma StillReaches(start: System, mid: System, s: System)
    requires Inv(start) && Reaches(start, mid) && Reaches(mid, s)
    ensures Inv(s) && Reaches(start, s)
    ensures forall b :: b in start.disk.sidecars ==> Kept(s, b) && b in start.reg && s.reg[b] == start.reg[b]
  {
    hide Inv, Reaches, Kept;
    ReachesOn(start, mid, s);
    ReachableKeepsInv(start, s);
    ReachableKeepsBundles(start, s);
  }

  lemma StandingOf(s: Server, meta: Meta, bytes: Bytes) returns (v: Standing)
    ensures Healthy(s, meta, bytes) ==> Stands(s, meta, bytes, v)
  {
    v := Absent;
    if Healthy(s, meta, bytes) {
      v :| Stands(s, meta, bytes, v);
    }
  }

  lemma VisitIsAttempt(d: Visit, bundle: Bundle, v: Standing, v': Standing, r: F.Outcome<Uuid>)
    requires d.own && d.attempt.tries > 0 && d.attempt.accepted == r.Ok?
    requires Healthy(d.attempt.before, bundle.meta, bundle.bytes) ==>
               Stands(d.attempt.before, bundle.meta, bundle.bytes, v)
    requires Stands(d.attempt.before, bundle.meta, bundle.bytes, v) ==>
               var p := F.Attempted(d.attempt.world, d.attempt.at, d.attempt.tries, U.ReachedBy(v), |bundle.bytes|,
                                    d.attempt.readable);
               Stands(d.attempt.after, bundle.meta, bundle.bytes, v') && U.Passes(p, v, v', d.attempt.next, r)
    ensures Serves(d, bundle.meta, bundle.bytes)
  {
    hide Stands, Healthy, F.Attempted;
    assert U.AttemptBy(d.attempt, bundle.meta, bundle.bytes, v, v') ==>
      U.IsAttempt(d.attempt, bundle.meta, bundle.bytes);
  }

  lemma InvHasNetInv(s: System, b: BundleId)
    requires Inv(s)
    ensures NetInv(s.reg, s.net)
    ensures b in s.reg ==> s.reg[b].meta.bundle == b
  {
  }

  class Agent {
    const queue: Queue
    const link: U.Link
    const policy: U.RetryPolicy
    ghost var reg: Registry

    ghost function State(): System
      reads this, queue, link
    {
      System(reg, queue.OnDisk(), link.net)
    }

    constructor (policy: U.RetryPolicy)
      ensures State() == START && fresh(queue) && fresh(link) && this.policy == policy
    {
      queue := new Queue();
      link := new U.Link();
      this.policy := policy;
      reg := map[];
    }

    /** Starts after a crash or a shutdown: stuck uploads become pending again. */
    method Start(nanos: nat, dir: Io, unreadable: set<BundleId>, course: nat -> (Io, Write)) returns (r: Result<()>)
      requires Inv(State())
      modifies queue
      ensures Reaches(old(State()), State())
      ensures r.Ok? ==> forall b :: b in queue.sidecars && b !in unreadable && queue.sidecars[b].Whole? ==>
                queue.sidecars[b].entry.state != Uploading
      ensures dir == Fine && (forall i :: course(i) == (Fine, Completes)) ==> r.Ok?
      ensures dir != Fine ==> r == (if dir == Crashed then Halted else Err(IoError)) && State() == old(State())
    {
      assert Labelled(queue.OnDisk()) by {
        SidecarsAreLabelled(State());
      }
      ghost var log;
      r, log := queue.Open(nanos, dir, unreadable, course);
      ReachesByRecovery(old(State()), log);
      assert r.Ok? ==> forall b :: b in queue.sidecars && b !in unreadable && queue.sidecars[b].Whole? ==>
        Readable(queue.sidecars, unreadable, b);
    }

    /** Enqueues what one collection pass produced; a failed pass changes nothing. */
    method CollectAndEnqueue(bundle: Option<Bundle>, nanos: nat, now: Time, move: Move, w: Write)
      returns (r: Result<()>)
      requires Inv(State())
      requires bundle.Some? ==> bundle.value.meta.bundle !in reg
                                && Describes(bundle.value.meta, bundle.value.meta.bundle, bundle.value.bytes)
      modifies this`reg, queue
      ensures Reaches(old(State()), State())
      ensures State() == Collecting(old(State()), bundle, nanos, now, move, w)
      ensures r == if bundle.None? then Ok(())
                   else Report(if move == Moved then IoOf(w) else if move.dies then Crashed else Faulted)
    {
      ReachesSelf(State());
      if bundle.None? { return Ok(()); }
      var Bundle(meta, bytes) := bundle.value;
      ghost var start := State();
      r := queue.Enqueue(meta, bytes, nanos, now, move, w);
      if move == Moved {
        reg := reg[meta.bundle := Bundle(meta, bytes)];
        assert meta.bundle !in start.disk.sidecars;
        ghost var mid := Next(start, TakeZip(meta, bytes));
        ReachesNext(start, TakeZip(meta, bytes));
        ReachesNext(mid, WriteEntry(meta.bundle, nanos, now, CutOf(w)));
        ReachesOn(start, mid, State());
      } else if move.copied.Some? {
        ReachesNext(start, TearZip(meta.bundle, bytes, move.copied.value));
      }
    }

    /** Picks the oldest eligible entry and marks it as uploading; `picked` tells which one it was. */
    method ClaimNext(nanos: nat, now: Time, f: DrainCourse)
      returns (r: Result<Option<Entry>>, ghost picked: Option<BundleId>)
      requires Inv(State())
      modifies queue`sidecars, queue`temps
      ensures Reaches(old(State()), State())
      ensures f.dir == Fine ==> Selects(old(queue.sidecars), f.unreadable, now, picked)
      ensures f.dir != Fine ==> picked == None && !r.Ok?
      ensures r.Halted? <==> StopsClaiming(f, picked)
      ensures picked.None? ==> State() == old(State()) && (f.dir == Fine ==> r == Ok(None))
      ensures picked.Some? ==> Claims(old(State()), State(), picked.value, nanos, f, r)
    {
      ReachesSelf(State());
      var next := queue.NextPending(now, f.dir, f.unreadable);
      picked := None;
      match next {
        case Halted => return Halted, picked;
        case Err(e) => return Err(e), picked;
        case Ok(None) => return Ok(None), picked;
        case Ok(Some(entry)) =>
          SidecarsAreLabelled(State());
          ghost var start := State();
          picked := Some(entry.meta.bundle);
          ghost var c :| Readable(queue.sidecars, f.unreadable, c) && queue.sidecars[c].entry == entry;
          assert c == entry.meta.bundle;
          var marked := queue.MarkUploading(entry.meta.bundle, nanos, f.claimRead, f.claimWrite);
          StateChanged(start, State(), entry.meta.bundle, nanos, (_: Entry) => Uploading, f.claimRead, f.claimWrite);
          r := match marked
               case Halted => Halted
               case Err(e) => Err(e)
               case Ok(_) => Ok(Some(entry));
      }
    }

    /**
     Uploads the oldest eligible bundle, if there is one, and records the outcome. The clock reads
     `now` when the bundle is picked and `later` when the outcome is written; `halted` says that the
     process stopped. Finished, failed or cut off, the drain loses no bundle.
     */
    method Drain(nanos: nat, now: Time, later: Time, f: DrainCourse, world: F.World, at: nat, ghost b: BundleId)
      returns (halted: bool, next: nat, ghost t: Turn)
      requires Inv(State()) && now <= later
      modifies queue, link
      ensures Inv(State()) && Reaches(old(State()), State()) && at <= next
      ensures forall c :: c in old(queue.sidecars) ==> Kept(State(), c)
      ensures DrainDoes(old(State()), State(), t, f, world, at, policy.maxAttempts, b)
      ensures t.now == now && t.later == later && t.next == next && t.halted == halted
    {
      hide Reaches, Inv, Acknowledged, Healthy, Acceptable, U.Calm, U.IsAttempt, Kept, Selects, Claims, Serves,
           SameView, FindResumable, SameFiles, SmoothDrain, RecordsOutcome, Settles, Oldest,
           Smooth, CanRecord, CanClaim, StopsOnDisk, StopsClaiming, StopsSettling, Open, IsDone, StaysMarked,
           ZipsAfter, Finished, NotFinished, GetsAsFar, ClaimsAsFar;
      next := at;
      ghost var selected;
      ghost var start := State();
      ReachesSelf(start);
      var claim;
      claim, selected := ClaimNext(nanos, now, f);
      ghost var claimed := State();
      StillReaches(start, start, claimed);
      ClaimEffect(start, claimed, selected, nanos, now, f, claim);
      if !claim.Ok? || claim.value.None? {
        halted := claim.Halted?;
        t := Turn(now, later, true, selected, false, at, halted);
        NoVisit(start, claimed, t, f.zipReadable, world, at, policy.maxAttempts, reg, b);
        IdleDrain(start, claimed, t, f);
        return;
      }
      var entry := claim.value.value;
      var c := entry.meta.bundle;
      var outcome;
      outcome, next := UploadClaimed(entry, f.zipReadable, world, at, b);
      t := Turn(now, later, true, selected, outcome.Ok?, next, true);
      ghost var uploaded := State();
      StillReaches(start, claimed, uploaded);
      if outcome.Halted? {
        halted := true;
        CutOffDrain(start, uploaded, t, f);
        ServedLater(claimed, uploaded, start, uploaded, t, t, f.zipReadable, world, at, policy.maxAttempts, reg, b);
        return;
      }
      halted := Settle(c, outcome.Ok?, nanos, later, f);
      StillReaches(start, uploaded, State());
      ghost var t' := t.(halted := halted);
      ServedLater(claimed, uploaded, start, State(), t, t', f.zipReadable, world, at, policy.maxAttempts, reg, b);
      t := t';
      DrainEffect(start.disk, claimed.disk, State().disk, entry, f, t);
      SettledDrain(State(), t, f);
    }

    /** Reads the zip of a claimed entry and uploads it. */
    method UploadClaimed(entry: Entry, readable: bool, world: F.World, at: nat, ghost b: BundleId)
      returns (outcome: F.Outcome<Uuid>, next: nat)
      requires Inv(State()) && entry.meta.bundle in queue.sidecars
      requires queue.sidecars[entry.meta.bundle] == Whole(entry.(state := Uploading))
      modifies link
      ensures Reaches(old(State()), State()) && at <= next && (policy.maxAttempts > 0 ==> next > at)
      ensures outcome.Halted? ==> F.DiesAt(world, at, next)
      ensures entry.meta.bundle in reg && reg[entry.meta.bundle].meta == entry.meta
      ensures outcome.Ok? ==> Acknowledged(link.net, entry.meta) && !Committed(old(link.net).server, entry.meta.bundle)
      ensures policy.maxAttempts > 0 && U.Calm(link.net.server, world, at, next, b)
              && b in reg && Acceptable(reg[b].meta, reg[b].bytes) ==>
                var a := U.Attempt(old(link.net).server, link.net.server, outcome.Ok?, readable, world, at, next,
                                   policy.maxAttempts);
                Serves(Visit(entry.meta.bundle == b, a), reg[b].meta, reg[b].bytes)
    {
      var c := entry.meta.bundle;
      assert SidecarOk(reg, queue.OnDisk(), c) && SessionsOk(reg, link.net.server);
      ghost var start := link.net;
      InvHasNetInv(State(), b);
      hide Reaches, Inv, Acknowledged, Acceptable, U.Calm, Healthy, Stands, SameView, NetInv, U.IsAttempt, U.Passes,
           F.Attempted, FindResumable;
      var zip := if readable && c in queue.zips then Some(queue.zips[c]) else None;
      ghost var v := StandingOf(start.server, entry.meta, reg[c].bytes);
      ghost var v';
      outcome, next, v' := link.Upload(reg, policy, entry.meta, zip, world, at, v, b);
      ReachesByWire(old(State()), link.net);
      if c == b && policy.maxAttempts > 0 && U.Calm(link.net.server, world, at, next, b)
         && Acceptable(reg[b].meta, reg[b].bytes) {
        ghost var a := U.Attempt(start.server, link.net.server, outcome.Ok?, readable, world, at, next,
                                 policy.maxAttempts);
        VisitIsAttempt(Visit(true, a), reg[b], v, v', outcome);
      }
    }

    /** Marks a claimed bundle done, or failed until the backoff has passed. */
    method RecordOutcome(b: BundleId, delivered: bool, nanos: nat, later: Time, read: Io, w: Write)
      returns (r: Result<()>)
      requires b in queue.sidecars && queue.sidecars[b].Whole? && queue.sidecars[b].entry.state == Uploading
      requires delivered ==> Acknowledged(link.net, queue.sidecars[b].entry.meta)
      modifies queue
      ensures Reaches(old(State()), State()) && queue.zips == old(queue.zips)
      ensures b in queue.sidecars && queue.sidecars[b].Whole?
      ensures queue.sidecars == old(queue.sidecars)[b := queue.sidecars[b]]
      ensures !delivered ==> !queue.sidecars[b].entry.state.Done?
      ensures r.Halted? <==> read == Crashed || (read == Fine && w.Dies?)
      ensures !(read == Fine && CutOf(w) == Renamed) ==> queue.sidecars == old(queue.sidecars)
      ensures r.Ok? <==> read == Fine && w == Completes
      ensures read == Fine && CutOf(w) == Renamed ==>
                queue.sidecars[b] == Whole(Recorded(old(queue.sidecars)[b].entry, delivered, later))
    {
      if delivered {
        r := queue.MarkDone(b, nanos, later, read, w);
        StateChanged(old(State()), State(), b, nanos, (_: Entry) => Done(later), read, w);
      } else {
        r := queue.MarkFailed(b, nanos, later, QUEUE_FAIL_BACKOFF, read, w);
        StateChanged(old(State()), State(), b, nanos, (e: Entry) => FailedAfter(e.state, later + QUEUE_FAIL_BACKOFF),
                     read, w);
      }
    }

    /** Records the outcome and drops the zip of a bundle that is done; other bundles keep their files. */
    method Settle(b: BundleId, delivered: bool, nanos: nat, later: Time, f: DrainCourse) returns (halted: bool)
      requires b in queue.sidecars && queue.sidecars[b].Whole? && queue.sidecars[b].entry.state == Uploading
      requires delivered ==> Acknowledged(link.net, queue.sidecars[b].entry.meta)
      modifies queue
      ensures Reaches(old(State()), State())
      ensures Settles(old(queue.OnDisk()), queue.OnDisk(), b, delivered, later, f, halted)
    {
      hide Reaches, Acknowledged, FindResumable;
      ghost var start := State();
      var recorded := RecordOutcome(b, delivered, nanos, later, f.recordRead, f.recordWrite);
      if recorded.Halted? { return true; }
      ghost var mid := State();
      halted := DropZipIfDone(b, f.checkRead, f.removal);
      ReachesOn(start, mid, State());
    }

    /** Deletes the zip of a bundle whose sidecar says done, and keeps the sidecar. */
    method DropZipIfDone(b: BundleId, read: Io, removal: Removal) returns (halted: bool)
      modifies queue`zips
      ensures Reaches(old(State()), State())
      ensures var done := read == Fine && b in queue.sidecars && queue.sidecars[b].Whole?
                          && queue.sidecars[b].entry.state.Done?;
              && queue.zips == (if done then Removed(old(queue.zips), b, removal) else old(queue.zips))
              && halted == (read == Crashed || (done && removal.DiesRemoving?))
    {
      ReachesSelf(State());
      var current := queue.Get(b, read);
      if current.Halted? { return true; }
      if current.Ok? && current.value.state.Done? {
        var removed := queue.RemoveZip(b, removal);
        if queue.zips != old(queue.zips) {
          ReachesNext(old(State()), DropZip(b));
        }
        return removed == Crashed;
      }
      halted := false;
    }
  }

  /** The picked entry is marked as uploading, as far as the write gets, and nothing else changes. */
  predicate Claims(s: System, s': System, b: BundleId, nanos: nat, f: DrainCourse, r: Result<Option<Entry>>) {
    && b in s.disk.sidecars && s.disk.sidecars[b].Whole?
    && var (d, done) := Transitioned(s.disk, b, nanos, (_: Entry) => Uploading, f.claimRead, f.claimWrite);
    && s' == s.(disk := d)
    && match done
       case Ok(_) => r == Ok(Some(s.disk.sidecars[b].entry))
       case Err(e) => r == Err(e)
       case Halted => r == Halted
  }

  /** A bundle that was just collected is new to the server. */
  lemma FreshIsHealthy(s: System, meta: Meta, bytes: Bytes)
    requires Inv(s) && meta.bundle !in s.reg
    ensures Healthy(s.net.server, meta, bytes) && !Committed(s.net.server, meta.bundle)
  {
    assert SessionsOk(s.reg, s.net.server);
    var latest := FindResumable(s.net.server.uploads, AGENT, meta.bundle, |s.net.server.uploads|);
    assert latest == None;
    assert Stands(s.net.server, meta, bytes, Absent);
  }

  /**
   Only the files of the bundle change. Its sidecar says what came of it if that could be written, and its zip goes
   if that is done and everything after it works.
   */
  ghost predicate Settles(d: Disk, d': Disk, b: BundleId, delivered: bool, later: Time, f: DrainCourse, halted: bool) {
    && b in d'.sidecars && d'.sidecars[b].Whole? && d'.sidecars == d.sidecars[b := d'.sidecars[b]]
    && (!delivered ==> !IsDone(d'.sidecars, b))
    && (f.recordRead == Fine && CutOf(f.recordWrite) == Renamed && b in d.sidecars && d.sidecars[b].Whole? ==>
          d'.sidecars[b] == Whole(Recorded(d.sidecars[b].entry, delivered, later)))
    && (!(f.recordRead == Fine && CutOf(f.recordWrite) == Renamed) ==> d'.sidecars == d.sidecars)
    && d'.zips == ZipsAfter(d.zips, Some(b), d'.sidecars, f)
    && (halted <==> StopsSettling(f, IsDone(d'.sidecars, b)))
  }

  /** A whole drain from its claim and its outcome. */
  lemma DrainEffect(d: Disk, claimed: Disk, d': Disk, e: Entry, f: DrainCourse, t: Turn)
    requires var b := e.meta.bundle;
             && t.selected == Some(b) && Open(d.sidecars, b) && d.sidecars[b] == Whole(e)
             && claimed == d.(sidecars := d.sidecars[b := Whole(e.(state := Uploading))], temps := claimed.temps)
             && Settles(claimed, d', b, t.accepted, t.later, f, t.halted)
    requires Smooth(f) ==> Eligible(e, t.now) && Oldest(d.sidecars, e, t.now)
    requires CanClaim(f)
    ensures forall c: BundleId :: c != e.meta.bundle ==> SameFiles(d, d', c)
    ensures forall c: BundleId :: Open(d.sidecars, c) && (t.accepted ==> c != e.meta.bundle) ==> Open(d'.sidecars, c)
    ensures CanRecord(f) && !t.halted ==> RecordsOutcome(d.sidecars, d'.sidecars, t)
    ensures !CanRecord(f) && !t.halted ==> StaysMarked(d.sidecars, d'.sidecars, t.selected)
    ensures Smooth(f) && !t.halted ==> SmoothDrain(d.sidecars, d'.sidecars, t)
    ensures GetsAsFar(d.sidecars, d'.sidecars, t, f)
    ensures d'.zips == ZipsAfter(d.zips, t.selected, d'.sidecars, f)
    ensures !StopsClaiming(f, t.selected) && (t.halted <==> StopsSettling(f, IsDone(d'.sidecars, e.meta.bundle)))
  {
  }

  /** A drain that ends with its claim. */
  lemma IdleDrain(s: System, s': System, t: Turn, f: DrainCourse)
    requires CanClaim(f) ==> t.selected.None? && !t.halted
    requires t.selected.None? ==> s' == s
    requires Smooth(f) && t.selected.None? ==> NoneEligible(s.disk.sidecars, t.now)
    requires NotFinished(s, s', t.selected) && (t.halted <==> StopsClaiming(f, t.selected))
    requires t.selected.Some? ==> ClaimsAsFar(s.disk.sidecars, s'.disk.sidecars, t.selected, f)
    ensures CanRecord(f) ==> RecordsOutcome(s.disk.sidecars, s'.disk.sidecars, t)
    ensures CanClaim(f) ==> StaysMarked(s.disk.sidecars, s'.disk.sidecars, t.selected)
    ensures GetsAsFar(s.disk.sidecars, s'.disk.sidecars, t, f)
    ensures Smooth(f) ==> SmoothDrain(s.disk.sidecars, s'.disk.sidecars, t)
    ensures s'.disk.zips == ZipsAfter(s.disk.zips, t.selected, s'.disk.sidecars, f)
    ensures StopsOnDisk(f, t.selected, Finished(s', t)) <==> t.halted
  {
  }

  /** A drain that gets to the end stops where the disk stops it. */
  lemma SettledDrain(s': System, t: Turn, f: DrainCourse)
    requires t.selected.Some? && CanClaim(f) && !StopsClaiming(f, t.selected)
    requires t.halted <==> StopsSettling(f, IsDone(s'.disk.sidecars, t.selected.value))
    ensures StopsOnDisk(f, t.selected, Finished(s', t)) <==> t.halted
  {
  }

  /** A drain that ends with its upload. */
  lemma CutOffDrain(s: System, s': System, t: Turn, f: DrainCourse)
    requires t.halted && NotFinished(s, s', t.selected) && CanClaim(f) && t.selected.Some?
    requires ClaimsAsFar(s.disk.sidecars, s'.disk.sidecars, t.selected, f)
    ensures GetsAsFar(s.disk.sidecars, s'.disk.sidecars, t, f)
    ensures s'.disk.zips == ZipsAfter(s.disk.zips, t.selected, s'.disk.sidecars, f)
  {
  }

  /** The selected entry is marked as uploading if that could be written. */
  predicate ClaimsAsFar(before: map<BundleId, Doc>, after: map<BundleId, Doc>, selected: Option<BundleId>,
                        f: DrainCourse) {
    if f.claimRead == Fine && CutOf(f.claimWrite) == Renamed then StaysMarked(before, after, selected)
    else after == before
  }

  /** The zips are as they were, and the selected bundle is not done. */
  predicate NotFinished(s: System, s': System, selected: Option<BundleId>) {
    s'.disk.zips == s.disk.zips && (selected.Some? ==> !IsDone(s'.disk.sidecars, selected.value))
  }

  /** What an upload did to a bundle is what the drain around it did. */
  lemma ServedLater(s: System, s1: System, s0: System, s': System, t: Turn, t': Turn, readable: bool, world: F.World,
                    at: nat, tries: nat, reg: Registry, b: BundleId)
    requires s0.net == s.net && s'.net == s1.net && t' == t.(halted := t'.halted)
    requires tries > 0 ==> t.next > at
    requires tries > 0 && U.Calm(s1.net.server, world, at, t.next, b)
             && b in reg && Acceptable(reg[b].meta, reg[b].bytes) ==>
               Serves(Visit(t.selected == Some(b),
                            U.Attempt(s.net.server, s1.net.server, t.accepted, readable, world, at, t.next, tries)),
                      reg[b].meta, reg[b].bytes)
    ensures tries > 0 && U.Calm(s'.net.server, world, at, t'.next, b)
            && b in reg && Acceptable(reg[b].meta, reg[b].bytes) ==>
              Serves(VisitOf(s0, s', t', readable, world, at, tries, b), reg[b].meta, reg[b].bytes)
  {
    hide Serves, U.Calm;
  }

  lemma SidecarsAreLabelled(s: System)
    requires Inv(s)
    ensures Labelled(s.disk)
    ensures forall b :: b in s.disk.sidecars ==>
              s.disk.sidecars[b].Whole? && b in s.reg && s.disk.sidecars[b].entry.meta == s.reg[b].meta
  {
    forall b | b in s.disk.sidecars ensures SidecarOk(s.reg, s.disk, b) && s.reg[b].meta.bundle == b {
    }
  }

  /** What a claim does to the files, to open entries and to the claimed one. */
  lemma ClaimEffect(s: System, s': System, picked: Option<BundleId>, nanos: nat, now: Time, f: DrainCourse,
                    r: Result<Option<Entry>>)
    requires Inv(s) && (f.dir == Fine ==> Selects(s.disk.sidecars, f.unreadable, now, picked))
    requires f.dir != Fine ==> picked == None && !r.Ok?
    requires picked.None? ==> s' == s && (f.dir == Fine ==> r == Ok(None))
    requires picked.Some? ==> Claims(s, s', picked.value, nanos, f, r)
    ensures forall c: BundleId :: picked != Some(c) ==> SameFiles(s.disk, s'.disk, c)
    ensures forall c :: Open(s.disk.sidecars, c) ==> Open(s'.disk.sidecars, c)
    ensures picked.Some? ==> f.dir == Fine && picked.value in s.reg && Open(s.disk.sidecars, picked.value)
    ensures NotFinished(s, s', picked)
    ensures picked.Some? ==> ClaimsAsFar(s.disk.sidecars, s'.disk.sidecars, picked, f)
    ensures r.Ok? && r.value.Some? ==>
              && picked == Some(r.value.value.meta.bundle) && s.disk.sidecars[picked.value] == Whole(r.value.value)
              && s'.disk.sidecars == s.disk.sidecars[picked.value := Whole(r.value.value.(state := Uploading))]
              && s'.disk.zips == s.disk.zips && s'.reg == s.reg && s'.net == s.net
    ensures r.Ok? && r.value.None? ==> picked.None? && s' == s
    ensures CanClaim(f) ==> r.Ok? && (picked.Some? ==> r.value.Some?)
    ensures (Smooth(f) ==> CanRecord(f)) && (CanRecord(f) ==> CanClaim(f))
    ensures r.Ok? && r.value.Some? ==> CanClaim(f)
    ensures Smooth(f) && picked.None? ==> NoneEligible(s.disk.sidecars, now)
    ensures Smooth(f) && picked.Some? ==>
              && Eligible(s.disk.sidecars[picked.value].entry, now)
              && Oldest(s.disk.sidecars, s.disk.sidecars[picked.value].entry, now)
  {
    SidecarsAreLabelled(s);
    assert Smooth(f) ==> forall c :: c in s.disk.sidecars ==> Readable(s.disk.sidecars, f.unreadable, c);
  }

  /** A sidecar write of an allowed transition, finished or not, is an event of the system. */
  lemma StateChanged(s: System, s': System, b: BundleId, nanos: nat, next: Entry -> QueueState, read: Io, w: Write)
    requires s' == s.(disk := Transitioned(s.disk, b, nanos, next, read, w).0)
    requires b in s.disk.sidecars && s.disk.sidecars[b].Whole?
    requires MayChange(s.net, s.disk.sidecars[b].entry, next(s.disk.sidecars[b].entry))
    ensures Reaches(s, s')
  {
    if read == Fine {
      ReachesNext(s, Change(b, nanos, next(s.disk.sidecars[b].entry), CutOf(w)));
    } else {
      ReachesSelf(s);
    }
  }

  // ---------------------------------------------------------------------------------------------
  // Drains commit
  // ---------------------------------------------------------------------------------------------

  /** Drains one after the other as one bundle sees them; in between nothing shows in the server's view of it. */
  ghost predicate Visits(ds: seq<Visit>, meta: Meta, bytes: Bytes) {
    && (forall i :: 0 <= i < |ds| ==> Serves(ds[i], meta, bytes))
    && (forall i, j :: 0 <= i < |ds| && 0 <= j < |ds| && j == i + 1 ==>
          SameView(ds[i].attempt.after, ds[j].attempt.before, meta.bundle))
  }

  /** The drains that picked the bundle. */
  function AttemptsOf(ds: seq<Visit>): seq<U.Attempt> {
    if ds == [] then []
    else AttemptsOf(ds[..|ds| - 1]) + if ds[|ds| - 1].own then [ds[|ds| - 1].attempt] else []
  }

  /** They are attempts one after the other, and the last of them left the bundle as it is at the end. */
  lemma {:induction false} AttemptsAreAChain(ds: seq<Visit>, meta: Meta, bytes: Bytes)
    requires ds != [] && Visits(ds, meta, bytes) && Healthy(ds[0].attempt.before, meta, bytes)
    ensures U.AttemptChain(AttemptsOf(ds), meta, bytes) && Healthy(ds[|ds| - 1].attempt.after, meta, bytes)
    ensures var attempts := AttemptsOf(ds);
            if attempts == [] then SameView(ds[0].attempt.before, ds[|ds| - 1].attempt.after, meta.bundle)
            else && SameView(ds[0].attempt.before, attempts[0].before, meta.bundle)
                 && SameView(attempts[|attempts| - 1].after, ds[|ds| - 1].attempt.after, meta.bundle)
    decreases |ds|
  {
    hide U.IsAttempt, Healthy, SameView;
    var last := ds[|ds| - 1];
    var init := ds[..|ds| - 1];
    if init == [] {
      SameViewSelf(last.attempt.before, meta.bundle);
    } else {
      AttemptsAreAChain(init, meta, bytes);
      assert init[|init| - 1] == ds[|init| - 1];
      assert SameView(init[|init| - 1].attempt.after, last.attempt.before, meta.bundle);
      HealthyBySameView(init[|init| - 1].attempt.after, last.attempt.before, meta, bytes);
      var earlier := AttemptsOf(init);
      SameViewOn(if earlier == [] then ds[0].attempt.before else earlier[|earlier| - 1].after,
                 init[|init| - 1].attempt.after,
                 last.attempt.before, meta.bundle);
    }
    if last.own {
      AttemptLeavesHealthy(last.attempt, meta, bytes);
      SameViewSelf(last.attempt.after, meta.bundle);
    } else {
      HealthyBySameView(last.attempt.before, last.attempt.after, meta, bytes);
      var earlier := AttemptsOf(init);
      SameViewOn(if earlier == [] then ds[0].attempt.before else earlier[|earlier| - 1].after, last.attempt.before,
                 last.attempt.after, meta.bundle);
    }
  }

  lemma HealthyBySameView(s: Server, s': Server, meta: Meta, bytes: Bytes)
    requires Healthy(s, meta, bytes) && SameView(s, s', meta.bundle)
    ensures Healthy(s', meta, bytes)
  {
    hide Stands;
    var v :| Stands(s, meta, bytes, v);
    StandsBySameView(s, s', meta, bytes, v);
  }

  lemma AttemptLeavesHealthy(a: U.Attempt, meta: Meta, bytes: Bytes)
    requires U.IsAttempt(a, meta, bytes)
    ensures Healthy(a.after, meta, bytes)
  {
    hide Stands;
    var v, v' :| U.AttemptBy(a, meta, bytes, v, v');
  }

  /**
   Progress of the whole agent: once the drains that picked the bundle outnumber the losses they suffered, the
   server holds exactly its bytes, whatever the drains in between did for other bundles and other devices did.
   */
  lemma DrainsCommit(ds: seq<Visit>, meta: Meta, bytes: Bytes)
    requires Visits(ds, meta, bytes) && |AttemptsOf(ds)| > U.TotalLosses(AttemptsOf(ds))
    requires Healthy(ds[0].attempt.before, meta, bytes)
    ensures Committed(ds[|ds| - 1].attempt.after, meta.bundle)
    ensures ds[|ds| - 1].attempt.after.sessions[(AGENT, meta.bundle)].blob == bytes
  {
    hide U.IsAttempt, Healthy, Serves;
    AttemptsAreAChain(ds, meta, bytes);
    U.CommittedOnceLossesRunOut(AttemptsOf(ds), meta, bytes);
  }

  /** Of those drains exactly one commits it; no other is accepted, and that one is iff the last answer arrived. */
  lemma OneDrainIsAccepted(ds: seq<Visit>, meta: Meta, bytes: Bytes) returns (k: nat)
    requires Visits(ds, meta, bytes) && |AttemptsOf(ds)| > U.TotalLosses(AttemptsOf(ds))
    requires Healthy(ds[0].attempt.before, meta, bytes) && !Committed(ds[0].attempt.before, meta.bundle)
    ensures var attempts := AttemptsOf(ds);
            && k < |attempts|
            && !Committed(attempts[k].before, meta.bundle) && Committed(attempts[k].after, meta.bundle)
            && (attempts[k].accepted <==> U.Answered(attempts[k]))
            && forall i :: 0 <= i < |attempts| && attempts[i].accepted ==> i == k
  {
    hide U.IsAttempt, Healthy, Serves;
    AttemptsAreAChain(ds, meta, bytes);
    k := U.AcceptedIffCommitWasAnswered(AttemptsOf(ds), meta, bytes);
  }

  // ---------------------------------------------------------------------------------------------
  // Nobody starves
  // ---------------------------------------------------------------------------------------------

  /** What the loop went through: its turns, and the states before, between and after them. */
  datatype Log = Log(states: seq<System>, turns: seq<Turn>)

  ghost function SidecarsAt(log: Log, i: nat): map<BundleId, Doc>
    requires i < |log.states|
  {
    log.states[i].disk.sidecars
  }

  /** A collection leaves every sidecar as it is and adds at most new ones, enqueued now. */
  ghost predicate Collected(before: map<BundleId, Doc>, after: map<BundleId, Doc>, now: Time) {
    && (forall c :: c in before ==> c in after && after[c] == before[c])
    && (forall c :: c in after && c !in before ==> after[c].Whole? && after[c].entry.enqueuedAt == now)
  }

  ghost predicate Orderly(before: map<BundleId, Doc>, after: map<BundleId, Doc>, t: Turn) {
    t.now <= t.later && if t.drained then SmoothDrain(before, after, t) else Collected(before, after, t.now)
  }

  /** Smooth drains one after the other, with collections in between. */
  ghost predicate OrderlyLog(log: Log, lo: nat, hi: nat) {
    && |log.states| == |log.turns| + 1 && lo <= hi <= |log.turns|
    && forall i :: lo <= i < hi ==> Orderly(SidecarsAt(log, i), SidecarsAt(log, i + 1), log.turns[i])
  }

  predicate Picks(t: Turn, b: BundleId) {
    t.drained && t.selected == Some(b)
  }

  function DrainsIn(turns: seq<Turn>, lo: nat, hi: nat): nat
    requires hi <= |turns|
  {
    if hi <= lo then 0 else DrainsIn(turns, lo, hi - 1) + if turns[hi - 1].drained then 1 else 0
  }

  /** The bundles that these drains selected. */
  ghost function Selected(turns: seq<Turn>, lo: nat, hi: nat): set<BundleId>
    requires hi <= |turns|
  {
    if hi <= lo then {}
    else
      var t := turns[hi - 1];
      Selected(turns, lo, hi - 1) + if t.drained && t.selected.Some? then {t.selected.value} else {}
  }

  /** The bundle is pending, or failed and due by that time. */
  predicate DueBy(sidecars: map<BundleId, Doc>, b: BundleId, time: Time) {
    && b in sidecars && sidecars[b].Whole?
    && match sidecars[b].entry.state
       case Pending => true
       case Failed(_, retryAt) => retryAt <= time
       case _ => false
  }

  predicate Competes(doc: Doc, enqueuedAt: Time) {
    doc.Whole? && !doc.entry.state.Done? && doc.entry.enqueuedAt <= enqueuedAt
  }

  /** All bundles that compete with b, because they are not done and no younger, are rivals. */
  predicate RivalsAt(sidecars: map<BundleId, Doc>, b: BundleId, enqueuedAt: Time, rivals: set<BundleId>) {
    forall c :: c in sidecars && c != b && Competes(sidecars[c], enqueuedAt) ==> c in rivals
  }

  ghost predicate RivalsAre(log: Log, lo: nat, hi: nat, b: BundleId, enqueuedAt: Time, rivals: set<BundleId>)
    requires hi <= |log.states|
  {
    forall i :: lo <= i < hi ==> RivalsAt(SidecarsAt(log, i), b, enqueuedAt, rivals)
  }

  ghost predicate AllParked(sidecars: map<BundleId, Doc>, bs: set<BundleId>, until: Time) {
    forall c :: c in bs ==> c in sidecars && sidecars[c].Whole? && Parked(sidecars[c].entry.state, until)
  }

  /** The turns start within one backoff period of the first of them. */
  ghost predicate InOneWindow(turns: seq<Turn>, lo: nat, hi: nat) {
    && lo < hi <= |turns|
    && forall i :: lo <= i < hi ==> turns[lo].now <= turns[i].now < turns[lo].now + QUEUE_FAIL_BACKOFF
  }

  /** A turn that does not pick a bundle leaves its entry alone. */
  lemma UnpickedStays(before: map<BundleId, Doc>, after: map<BundleId, Doc>, t: Turn, b: BundleId)
    requires Orderly(before, after, t) && !Picks(t, b) && b in before
    ensures b in after && after[b] == before[b]
  {
  }

  /** A drain that passes b over takes an eligible rival and parks it past the end of the window. */
  lemma DrainUsesUpRival(before: map<BundleId, Doc>, after: map<BundleId, Doc>, t: Turn, b: BundleId,
                         used: set<BundleId>, until: Time)
    requires Orderly(before, after, t) && t.drained && !Picks(t, b) && DueBy(before, b, t.now)
    requires t.now < until <= t.now + QUEUE_FAIL_BACKOFF && AllParked(before, used, until)
    ensures t.selected.Some? && t.selected.value !in used && t.selected.value in before
    ensures Competes(before[t.selected.value], before[b].entry.enqueuedAt)
    ensures AllParked(after, used + {t.selected.value}, until)
  {
    assert Eligible(before[b].entry, t.now);
  }

  /** A turn that passes b over uses up another rival, if it is a drain, and keeps the others parked. */
  lemma OneMoreRival(before: map<BundleId, Doc>, after: map<BundleId, Doc>, t: Turn, b: BundleId, used: set<BundleId>,
                     until: Time, rivals: set<BundleId>)
    requires Orderly(before, after, t) && !Picks(t, b) && DueBy(before, b, t.now)
    requires t.now < until <= t.now + QUEUE_FAIL_BACKOFF && AllParked(before, used, until)
    requires used <= rivals && RivalsAt(before, b, before[b].entry.enqueuedAt, rivals)
    ensures b in after && after[b] == before[b]
    ensures t.drained ==> t.selected.Some? && t.selected.value !in used
    ensures var used' := used + if t.drained then {t.selected.value} else {};
            used' <= rivals && AllParked(after, used', until)
  {
    hide Orderly, Parked, Competes;
    UnpickedStays(before, after, t, b);
    if t.drained {
      DrainUsesUpRival(before, after, t, b, used, until);
    } else {
      forall c | c in used ensures c in after && after[c] == before[c] {
        CollectedStays(before, after, t, c);
      }
    }
  }

  /** As long as b is passed over, every drain uses up another rival for the rest of the window. */
  lemma {:induction false} RivalsAreUsedUp(log: Log, lo: nat, hi: nat, end: nat, b: BundleId, rivals: set<BundleId>)
    requires lo <= hi <= end && OrderlyLog(log, lo, end) && InOneWindow(log.turns, lo, end)
    requires DueBy(SidecarsAt(log, lo), b, log.turns[lo].now)
    requires RivalsAre(log, lo, end, b, SidecarsAt(log, lo)[b].entry.enqueuedAt, rivals)
    requires forall i :: lo <= i < hi ==> !Picks(log.turns[i], b)
    ensures b in SidecarsAt(log, hi) && SidecarsAt(log, hi)[b] == SidecarsAt(log, lo)[b]
    ensures Selected(log.turns, lo, hi) <= rivals && |Selected(log.turns, lo, hi)| == DrainsIn(log.turns, lo, hi)
    ensures AllParked(SidecarsAt(log, hi), Selected(log.turns, lo, hi), log.turns[lo].now + QUEUE_FAIL_BACKOFF)
  {
    hide Orderly, RivalsAt, AllParked, Picks;
    if lo < hi {
      RivalsAreUsedUp(log, lo, hi - 1, end, b, rivals);
      var before, after, t := SidecarsAt(log, hi - 1), SidecarsAt(log, hi), log.turns[hi - 1];
      var used, until := Selected(log.turns, lo, hi - 1), log.turns[lo].now + QUEUE_FAIL_BACKOFF;
      assert Orderly(before, after, t) && !Picks(t, b);
      assert RivalsAt(before, b, before[b].entry.enqueuedAt, rivals);
      OneMoreRival(before, after, t, b, used, until, rivals);
      assert Selected(log.turns, lo, hi) == used + if t.drained then {t.selected.value} else {};
    } else {
      NoneParked(SidecarsAt(log, hi), log.turns[lo].now + QUEUE_FAIL_BACKOFF);
    }
  }

  lemma NoneParked(sidecars: map<BundleId, Doc>, until: Time)
    ensures AllParked(sidecars, {}, until)
  {
  }

  lemma CollectedStays(before: map<BundleId, Doc>, after: map<BundleId, Doc>, t: Turn, c: BundleId)
    requires Orderly(before, after, t) && !t.drained && c in before
    ensures c in after && after[c] == before[c]
  {
  }

  /**
   Bounded starvation: of more drains than there are rivals, all of which start within one backoff period of
   the first turn at which the bundle is due, some drain picks the bundle.
   */
  lemma NobodyStarves(log: Log, lo: nat, hi: nat, b: BundleId, rivals: set<BundleId>)
    requires OrderlyLog(log, lo, hi) && InOneWindow(log.turns, lo, hi)
    requires DueBy(SidecarsAt(log, lo), b, log.turns[lo].now)
    requires RivalsAre(log, lo, hi, b, SidecarsAt(log, lo)[b].entry.enqueuedAt, rivals)
    requires DrainsIn(log.turns, lo, hi) > |rivals|
    ensures exists i :: lo <= i < hi && Picks(log.turns[i], b)
  {
    if forall i :: lo <= i < hi ==> !Picks(log.turns[i], b) {
      RivalsAreUsedUp(log, lo, hi, hi, b, rivals);
      SubsetSize(Selected(log.turns, lo, hi), rivals);
      assert false;
    }
  }
}
