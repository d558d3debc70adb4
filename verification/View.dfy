/**
 What the server looks like to one bundle of the agent, and what leaves that view alone: everything
 that other devices and other bundles do.
 */
module View {
  import opened Encoding
  import opened Wrappers
  import opened Ingest
  import opened Network

  predicate Committed(s: Server, b: BundleId) {
    (AGENT, b) in s.sessions
  }

  /** The bundle has the same rows, the same staging files and the same session, if any. */
  ghost predicate SameView(s: Server, s': Server, b: BundleId) {
    && (forall row: nat :: OfBundle(s, row, b) || OfBundle(s', row, b) ==> SameRow(s, s', row))
    && Committed(s, b) == Committed(s', b)
    && (Committed(s, b) ==> s'.sessions[(AGENT, b)] == s.sessions[(AGENT, b)])
  }

  predicate SameRow(s: Server, s': Server, row: nat) {
    && row < |s.uploads| && row < |s'.uploads| && s'.uploads[row] == s.uploads[row]
    && (row in s.staging <==> row in s'.staging)
    && (row in s.staging ==> s'.staging[row] == s.staging[row])
  }

  lemma SameViewSelf(s: Server, b: BundleId)
    ensures SameView(s, s, b)
  {
  }

  lemma SameViewOn(s: Server, t: Server, u: Server, b: BundleId)
    requires SameView(s, t, b) && SameView(t, u, b)
    ensures SameView(s, u, b)
  {
    forall row: nat | OfBundle(s, row, b) || OfBundle(u, row, b)
      ensures SameRow(s, u, row)
    {
      assert OfBundle(s, row, b) ==> SameRow(s, t, row);
      assert OfBundle(u, row, b) ==> SameRow(t, u, row);
    }
  }

  // ---------------------------------------------------------------------------------------------
  // Events that are about something else
  // ---------------------------------------------------------------------------------------------

  /** The agent's request names the bundle or one of its uploads. */
  predicate Concerns(s: Server, req: Request, b: BundleId) {
    match req
    case InitRequest(meta) => meta.bundle == b
    case ChunkRequest(id, _, _) => id.UploadUuid? && OfBundle(s, id.index, b)
    case FinalizeRequest(id, _) => id.UploadUuid? && OfBundle(s, id.index, b)
  }

  predicate WorksOn(s: Server, t: Task, b: BundleId) {
    match t
    case CreateUpload(device, meta) => device == AGENT && meta.bundle == b
    case _ => OfBundle(s, t.row, b)
  }

  /** An event of another device, or of the agent on behalf of another bundle. */
  predicate Foreign(s: Server, e: NetEvent, b: BundleId) {
    match e
    case Send(_, _) => true
    case Receive(device, req) => device == AGENT ==> !Concerns(s, req, b)
    case Advance(h, _) => !WorksOn(s, h.task, b)
    case Die(h, _) => !WorksOn(s, h.task, b)
  }

  predicate AllForeign(s: Server, es: seq<NetEvent>, b: BundleId) {
    forall i :: 0 <= i < |es| ==> Foreign(s, es[i], b)
  }

  /** What is foreign when all rows are known was foreign before. */
  lemma ForeignEarlier(s: Server, s': Server, e: NetEvent, b: BundleId)
    requires Grows(s, s') && Foreign(s', e, b)
    ensures Foreign(s, e, b)
  {
  }

  lemma ConcernsLater(s: Server, s': Server, req: Request, b: BundleId)
    requires Grows(s, s') && Concerns(s, req, b)
    ensures Concerns(s', req, b)
  {
  }

  /** A handler of a request that is about something else goes on to work on something else. */
  lemma BeginWorksElsewhere(s: Server, req: Request, b: BundleId)
    requires !Concerns(s, req, b)
    ensures var (s', o) := Begin(s, AGENT, req); o.Continue? ==> !WorksOn(s', o.task, b)
  {
  }

  lemma ResumeWorksElsewhere(s: Server, t: Task, keep: bool, b: BundleId)
    requires TaskFits(s, t) && !WorksOn(s, t, b)
    ensures var (s', o) := Resume(s, t, keep); o.Continue? ==> !WorksOn(s', o.task, b)
  {
  }

  lemma BeginKeepsView(s: Server, device: DeviceId, req: Request, b: BundleId)
    requires device == AGENT ==> !Concerns(s, req, b)
    ensures SameView(s, Begin(s, device, req).0, b)
  {
  }

  lemma ResumeKeepsView(s: Server, t: Task, keep: bool, b: BundleId)
    requires TaskFits(s, t) && !WorksOn(s, t, b)
    ensures SameView(s, Resume(s, t, keep).0, b)
  {
  }

  lemma TearKeepsView(s: Server, t: Task, wrote: nat, b: BundleId)
    requires !WorksOn(s, t, b)
    ensures SameView(s, TearWrite(s, t, wrote), b)
  {
  }

  /** No event of another device or another bundle shows in this bundle's view. */
  lemma ForeignKeepsView(reg: Registry, net: Net, e: NetEvent, b: BundleId)
    requires NetEnabled(reg, net, e) && Foreign(net.server, e, b)
    ensures SameView(net.server, NetNext(reg, net, e).server, b)
  {
    match e
    case Send(_, _) =>
    case Receive(device, req) => BeginKeepsView(net.server, device, req, b);
    case Advance(h, keep) => ResumeKeepsView(net.server, h.task, keep, b);
    case Die(h, wrote) => TearKeepsView(net.server, h.task, wrote, b);
  }

  /** Over any run of such events, judged by the rows there are at its end, the view stays. */
  lemma {:induction false} ForeignRunKeepsView(reg: Registry, net: Net, es: seq<NetEvent>, b: BundleId)
    requires NetLegal(reg, net, es) && AllForeign(NetExec(reg, net, es).server, es, b)
    ensures SameView(net.server, NetExec(reg, net, es).server, b)
    decreases |es|
  {
    hide NetNext, NetEnabled, Foreign;
    if es != [] {
      var next := NetNext(reg, net, es[0]);
      RunGrows(reg, net, es);
      ForeignEarlier(net.server, NetExec(reg, net, es).server, es[0], b);
      ForeignKeepsView(reg, net, es[0], b);
      ForeignRunKeepsView(reg, next, es[1..], b);
      SameViewOn(net.server, next.server, NetExec(reg, net, es).server, b);
    }
  }

  /** Whatever another device does is foreign to every bundle of the agent. */
  lemma OtherDevicesAreForeign(reg: Registry, net: Net, e: NetEvent, b: BundleId)
    requires NetInv(reg, net) && NetEnabled(reg, net, e)
    requires match e
             case Send(_, _) => true
             case Receive(device, _) => device != AGENT
             case Advance(h, _) => h.device != AGENT
             case Die(h, _) => h.device != AGENT
    ensures Foreign(net.server, e, b)
  {
    if e.Advance? || e.Die? {
      assert HandlerOk(reg, net.server, e.handler);
    }
  }

  // ---------------------------------------------------------------------------------------------
  // Where a bundle stands
  // ---------------------------------------------------------------------------------------------

  /**
   A bundle without a live upload, one with a prefix staged, and a committed one. The row of a
   committed bundle, where it is known, is the upload it was committed from.
   */
  datatype Standing = Absent | Active(row: nat, offset: nat) | Settled(session: Uuid, source: Option<nat>)

  predicate Stands(s: Server, meta: Meta, bytes: Bytes, v: Standing) {
    var latest := FindResumable(s.uploads, AGENT, meta.bundle, |s.uploads|);
    match v
    case Absent => latest == None && !Committed(s, meta.bundle)
    case Active(row, offset) =>
      && latest == Some(row) && s.uploads[row] == Upload(AGENT, meta, offset, false)
      && offset <= |bytes| && row in s.staging && s.staging[row] == bytes[..offset]
      && !Committed(s, meta.bundle)
    case Settled(session, row) =>
      && Committed(s, meta.bundle) && s.sessions[(AGENT, meta.bundle)] == Session(session, bytes)
      && session.SessionUuid?
      && (row.Some? ==> OfBundle(s, row.value, meta.bundle) && s.uploads[row.value].finalized)
  }

  /** No chunk write of the bundle is outstanding or torn, and no commit of it is half done. */
  ghost predicate Healthy(s: Server, meta: Meta, bytes: Bytes) {
    exists v :: Stands(s, meta, bytes, v)
  }

  lemma LatestIsSame(s: Server, s': Server, b: BundleId)
    requires SameView(s, s', b)
    ensures FindResumable(s.uploads, AGENT, b, |s.uploads|) == FindResumable(s'.uploads, AGENT, b, |s'.uploads|)
  {
    var r, r' := FindResumable(s.uploads, AGENT, b, |s.uploads|), FindResumable(s'.uploads, AGENT, b, |s'.uploads|);
    if r.Some? {
      assert OfBundle(s, r.value, b) && SameRow(s, s', r.value);
    }
    if r'.Some? {
      assert OfBundle(s', r'.value, b) && SameRow(s, s', r'.value);
    }
  }

  /** Where a bundle stands is a matter of its view. */
  lemma StandsBySameView(s: Server, s': Server, meta: Meta, bytes: Bytes, v: Standing)
    requires SameView(s, s', meta.bundle) && Stands(s, meta, bytes, v)
    ensures Stands(s', meta, bytes, v)
  {
    LatestIsSame(s, s', meta.bundle);
    match v
    case Absent =>
    case Active(row, _) => assert OfBundle(s, row, meta.bundle) && SameRow(s, s', row);
    case Settled(_, row) => assert row.Some? ==> SameRow(s, s', row.value);
  }

  /** A bundle the server accepts at all. */
  predicate Acceptable(meta: Meta, bytes: Bytes) {
    meta.sha == Sha256(bytes) && meta.size == |bytes| && bytes != [] && meta.kind != Unknown
  }

  // ---------------------------------------------------------------------------------------------
  // What one handled request does to a standing bundle
  // ---------------------------------------------------------------------------------------------

  /** A request the uploader makes of a bundle that stands there, or that it may repeat there. */
  predicate Fits(req: Request, meta: Meta, bytes: Bytes, v: Standing) {
    match req
    case InitRequest(m) => m == meta
    case ChunkRequest(id, offset, data) =>
      && id.UploadUuid? && 0 < |data| <= MAX_CHUNK_SIZE && SliceOf(bytes, offset, data)
      && v in {Active(id.index, offset), Active(id.index, offset + |data|)}
    case FinalizeRequest(id, sha) =>
      sha == meta.sha &&
      if id.UploadUuid? then v == Active(id.index, |bytes|) || (v.Settled? && v.source == Some(id.index))
      else v.Settled?
  }

  /** Where the bundle stands once the request has been handled. */
  predicate Moves(req: Request, bytes: Bytes, v: Standing, v': Standing) {
    match req
    case InitRequest(_) => if v.Absent? then v'.Active? && v'.offset == 0 else v' == v
    case ChunkRequest(id, offset, data) => id.UploadUuid? && v' == Active(id.index, offset + |data|)
    case FinalizeRequest(id, _) =>
      if v.Active? then id.UploadUuid? && v'.Settled? && v'.source == Some(id.index) else v' == v
  }

  /** The answer to a request that moved the bundle from one standing to the other. */
  function AnswerTo(req: Request, bytes: Bytes, v: Standing, v': Standing): Reply {
    match req
    case InitRequest(_) =>
      (match v'
       case Active(row, offset) => InitOk(UploadUuid(row), SERVER_CHUNK_SIZE, offset)
       case Settled(session, _) => InitOk(session, SERVER_CHUNK_SIZE, |bytes|)
       case Absent => Refused(INTERNAL))
    case ChunkRequest(_, offset, data) => if v == v' then Refused(CONFLICT) else ChunkOk(offset + |data|)
    case FinalizeRequest(id, _) => if id.UploadUuid? && v'.Settled? then FinalizeOk(v'.session) else Refused(NOT_FOUND)
  }

  /** Handling a request again moves the bundle no further. */
  lemma MovesOnce(req: Request, meta: Meta, bytes: Bytes, v: Standing, v': Standing)
    requires Fits(req, meta, bytes, v) && Moves(req, bytes, v, v')
    ensures Fits(req, meta, bytes, v') && Moves(req, bytes, v', v')
    ensures forall w :: Moves(req, bytes, v', w) ==> w == v'
  {
  }

  /**
   Where the server stands between two stages of a handler of the request: the outcome so far is an
   answer that fits the new standing, or a task that is still to be done.
   */
  ghost predicate Underway(s: Server, meta: Meta, bytes: Bytes, req: Request, v: Standing, o: StageResult) {
    match o
    case Answer(reply) =>
      exists v' :: Stands(s, meta, bytes, v') && Moves(req, bytes, v, v') && reply == AnswerTo(req, bytes, v, v')
    case Continue(task) => TaskFits(s, task) && TaskUnderway(s, meta, bytes, req, v, task)
  }

  predicate TaskUnderway(s: Server, meta: Meta, bytes: Bytes, req: Request, v: Standing, task: Task)
    requires TaskFits(s, task)
  {
    var latest := FindResumable(s.uploads, AGENT, meta.bundle, |s.uploads|);
    match task
    case CreateUpload(device, m) =>
      device == AGENT && m == meta && req.InitRequest? && v == Absent && Stands(s, meta, bytes, Absent)
    case WriteChunk(row, offset, data) =>
      && req.ChunkRequest? && req.upload == UploadUuid(row) && req.offset == offset && req.data == data
      && v == Active(row, offset) && SliceOf(bytes, offset, data) && |bytes| == meta.size
      && latest == Some(row) && s.uploads[row] == Upload(AGENT, meta, offset + |data|, false)
      && row in s.staging && s.staging[row] == bytes[..offset] && !Committed(s, meta.bundle)
    case ShipBlob(row) =>
      FinalizesRow(req, row) && v == Active(row, |bytes|) && Stands(s, meta, bytes, v)
    case MarkFinalized(row, session, blob) =>
      && FinalizesRow(req, row) && v == Active(row, |bytes|) && blob == bytes && session.SessionUuid?
      && s.uploads[row] == Upload(AGENT, meta, |bytes|, false) && !Committed(s, meta.bundle)
    case InsertSession(row, session, blob) =>
      && FinalizesRow(req, row) && v == Active(row, |bytes|) && blob == bytes && session.SessionUuid?
      && s.uploads[row] == Upload(AGENT, meta, |bytes|, true) && !Committed(s, meta.bundle)
  }

  /** Between two stages other devices and other bundles may do what they like. */
  lemma UnderwayBySameView(s: Server, s': Server, meta: Meta, bytes: Bytes, req: Request, v: Standing, o: StageResult)
    requires SameView(s, s', meta.bundle) && Underway(s, meta, bytes, req, v, o) && |s.uploads| <= |s'.uploads|
    ensures Underway(s', meta, bytes, req, v, o)
  {
    match o
    case Answer(reply) =>
      var v' :| Stands(s, meta, bytes, v') && Moves(req, bytes, v, v') && reply == AnswerTo(req, bytes, v, v');
      StandsBySameView(s, s', meta, bytes, v');
    case Continue(task) =>
      LatestIsSame(s, s', meta.bundle);
      match task {
        case CreateUpload(_, _) => StandsBySameView(s, s', meta, bytes, Absent);
        case ShipBlob(_) => StandsBySameView(s, s', meta, bytes, v);
        case _ => assert OfBundle(s, task.row, meta.bundle) && SameRow(s, s', task.row);
      }
  }

  lemma InitServes(s: Server, meta: Meta, bytes: Bytes, v: Standing)
    requires Stands(s, meta, bytes, v) && Acceptable(meta, bytes)
    ensures var (s', o) := Begin(s, AGENT, InitRequest(meta));
            Underway(s', meta, bytes, InitRequest(meta), v, o)
  {
    if !v.Absent? {
      assert Moves(InitRequest(meta), bytes, v, v);
    }
  }

  lemma ChunkServes(s: Server, meta: Meta, bytes: Bytes, req: Request, v: Standing)
    requires Stands(s, meta, bytes, v) && Acceptable(meta, bytes) && req.ChunkRequest? && Fits(req, meta, bytes, v)
    ensures var (s', o) := Begin(s, AGENT, req); Underway(s', meta, bytes, req, v, o)
  {
    var s' := Begin(s, AGENT, req).0;
    if v == Active(req.upload.index, req.offset) {
      SameOthersSameLatest(s.uploads, s'.uploads, meta.bundle, |s.uploads|);
    } else {
      assert Moves(req, bytes, v, v);
    }
  }

  lemma SameOthersSameLatest(us: seq<Upload>, vs: seq<Upload>, b: BundleId, n: nat)
    requires |us| == |vs| && n <= |us|
    requires forall k :: 0 <= k < n ==> Resumable(us[k], AGENT, b) == Resumable(vs[k], AGENT, b)
    ensures FindResumable(us, AGENT, b, n) == FindResumable(vs, AGENT, b, n)
  {
  }

  lemma FinalizeServes(s: Server, meta: Meta, bytes: Bytes, req: Request, v: Standing)
    requires Stands(s, meta, bytes, v) && Acceptable(meta, bytes) && req.FinalizeRequest? && Fits(req, meta, bytes, v)
    ensures var (s', o) := Begin(s, AGENT, req); Underway(s', meta, bytes, req, v, o)
  {
    if v.Active? {
      assert bytes[..|bytes|] == bytes;
    } else {
      assert Moves(req, bytes, v, v);
    }
  }

  lemma BeginServes(s: Server, meta: Meta, bytes: Bytes, req: Request, v: Standing)
    requires Stands(s, meta, bytes, v) && Acceptable(meta, bytes) && Fits(req, meta, bytes, v)
    ensures var (s', o) := Begin(s, AGENT, req); Underway(s', meta, bytes, req, v, o)
  {
    match req
    case InitRequest(_) => InitServes(s, meta, bytes, v);
    case ChunkRequest(_, _, _) => ChunkServes(s, meta, bytes, req, v);
    case FinalizeRequest(_, _) => FinalizeServes(s, meta, bytes, req, v);
  }

  lemma CreateServes(s: Server, meta: Meta, bytes: Bytes, req: Request, v: Standing, t: Task, keep: bool)
    requires TaskFits(s, t) && TaskUnderway(s, meta, bytes, req, v, t) && t.CreateUpload?
    ensures var (s', o) := Resume(s, t, keep); Underway(s', meta, bytes, req, v, o)
  {
    var s' := Resume(s, t, keep).0;
    assert s'.uploads[|s.uploads|] == Upload(AGENT, meta, 0, false);
    assert Stands(s', meta, bytes, Active(|s.uploads|, 0));
    assert Moves(req, bytes, v, Active(|s.uploads|, 0));
  }

  lemma WriteServes(s: Server, meta: Meta, bytes: Bytes, req: Request, v: Standing, t: Task, keep: bool)
    requires TaskFits(s, t) && TaskUnderway(s, meta, bytes, req, v, t) && t.WriteChunk? && |t.data| > 0
    ensures var (s', o) := Resume(s, t, keep); Underway(s', meta, bytes, req, v, o)
  {
    var s' := Resume(s, t, keep).0;
    var end := t.offset + |t.data|;
    assert WriteAt(bytes[..t.offset], t.offset, t.data) == bytes[..end];
    assert Stands(s', meta, bytes, Active(t.row, end));
    assert Moves(req, bytes, v, Active(t.row, end));
  }

  lemma CommitServes(s: Server, meta: Meta, bytes: Bytes, req: Request, v: Standing, t: Task, keep: bool)
    requires TaskFits(s, t) && TaskUnderway(s, meta, bytes, req, v, t)
    requires t.ShipBlob? || t.MarkFinalized? || t.InsertSession?
    ensures var (s', o) := Resume(s, t, keep); Underway(s', meta, bytes, req, v, o)
  {
    var s' := Resume(s, t, keep).0;
    if t.ShipBlob? {
      assert bytes[..|bytes|] == bytes;
    } else if t.InsertSession? {
      var v' := Settled(t.session, Some(t.row));
      assert Stands(s', meta, bytes, v') && Moves(req, bytes, v, v');
    }
  }

  lemma ResumeServes(s: Server, meta: Meta, bytes: Bytes, req: Request, v: Standing, t: Task, keep: bool)
    requires Underway(s, meta, bytes, req, v, Continue(t)) && Fits(req, meta, bytes, v)
    ensures var (s', o) := Resume(s, t, keep); Underway(s', meta, bytes, req, v, o)
  {
    match t
    case CreateUpload(_, _) => CreateServes(s, meta, bytes, req, v, t, keep);
    case WriteChunk(_, _, _) => WriteServes(s, meta, bytes, req, v, t, keep);
    case _ => CommitServes(s, meta, bytes, req, v, t, keep);
  }

  /** A task of this request is work on the bundle, so no foreign event takes it away. */
  lemma OwnTaskIsNotForeign(s: Server, meta: Meta, bytes: Bytes, req: Request, v: Standing, t: Task)
    requires Underway(s, meta, bytes, req, v, Continue(t))
    ensures WorksOn(s, t, meta.bundle)
  {
  }

  lemma {:induction false} FinishServes(s: Server, meta: Meta, bytes: Bytes, req: Request, v: Standing, o: StageResult)
    requires Underway(s, meta, bytes, req, v, o) && Fits(req, meta, bytes, v)
    ensures var (s', reply) := Finish(s, o); Underway(s', meta, bytes, req, v, Answer(reply))
    decreases StagesLeft(o)
  {
    if o.Continue? {
      var (s', o') := Resume(s, o.task, false);
      ResumeServes(s, meta, bytes, req, v, o.task, false);
      assert StagesLeft(o') < StagesLeft(o) && Finish(s, o) == Finish(s', o');
      FinishServes(s', meta, bytes, req, v, o');
    }
  }

  /** A whole handler that nothing interrupts moves the bundle and answers as said. */
  lemma HandleServes(s: Server, meta: Meta, bytes: Bytes, req: Request, v: Standing) returns (v': Standing)
    requires Stands(s, meta, bytes, v) && Acceptable(meta, bytes) && Fits(req, meta, bytes, v)
    ensures var (s', reply) := Handle(s, AGENT, req);
            Stands(s', meta, bytes, v') && Moves(req, bytes, v, v') && reply == AnswerTo(req, bytes, v, v')
  {
    var (s1, o) := Begin(s, AGENT, req);
    BeginServes(s, meta, bytes, req, v);
    FinishServes(s1, meta, bytes, req, v, o);
    var (s', reply) := Handle(s, AGENT, req);
    v' :| Stands(s', meta, bytes, v') && Moves(req, bytes, v, v') && reply == AnswerTo(req, bytes, v, v');
  }

  /** A request of the bundle that the client gave up on and that arrives late, for its upload or under a session id. */
  predicate IsLate(req: Request, meta: Meta, bytes: Bytes, v: Standing) {
    match req
    case InitRequest(m) => m == meta
    case ChunkRequest(id, offset, data) =>
      && 0 < |data| <= MAX_CHUNK_SIZE && SliceOf(bytes, offset, data)
      && (id.UploadUuid? ==> IsItsUpload(id, v))
    case FinalizeRequest(id, sha) => sha == meta.sha && (id.UploadUuid? ==> IsItsUpload(id, v))
  }

  predicate IsItsUpload(id: Uuid, v: Standing)
    requires id.UploadUuid?
  {
    (v.Active? && v.row == id.index) || (v.Settled? && v.source == Some(id.index))
  }

  /** Handled whole, it moves the bundle on or leaves it where it stands, and a committed one keeps its session. */
  lemma LateRequestDoesNoHarm(s: Server, meta: Meta, bytes: Bytes, req: Request, v: Standing) returns (v': Standing)
    requires Stands(s, meta, bytes, v) && Acceptable(meta, bytes) && IsLate(req, meta, bytes, v)
    ensures Stands(Handle(s, AGENT, req).0, meta, bytes, v')
    ensures v.Settled? ==> v' == v
    ensures v.Active? && v'.Active? ==> v'.row == v.row && v'.offset >= v.offset
  {
    if Fits(req, meta, bytes, v) {
      hide Handle;
      v' := HandleServes(s, meta, bytes, req, v);
    } else {
      v' := v;
    }
  }

  /** Retention deletes a session and nothing else that an upload depends on. */
  function Expire(s: Server, b: BundleId): Server {
    s.(sessions := s.sessions - {(AGENT, b)})
  }

  /**
   A committed bundle whose session has expired is as new to the server, if no unfinalized upload of it is
   left: the next init opens an empty upload, so the agent sends the bundle again.
   */
  lemma RetentionReopens(s: Server, meta: Meta, bytes: Bytes, v: Standing)
    requires Stands(s, meta, bytes, v) && v.Settled? && Acceptable(meta, bytes)
    requires FindResumable(s.uploads, AGENT, meta.bundle, |s.uploads|) == None
    ensures var (s', reply) := Handle(Expire(s, meta.bundle), AGENT, InitRequest(meta));
            && reply.InitOk? && reply.upload.UploadUuid? && reply.resumeOffset == 0
            && Stands(s', meta, bytes, Active(reply.upload.index, 0))
  {
    var expired := Expire(s, meta.bundle);
    assert Stands(expired, meta, bytes, Absent);
    hide Handle, FindResumable;
    var v' := HandleServes(expired, meta, bytes, InitRequest(meta), Absent);
  }
}
