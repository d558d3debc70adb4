/**
 The agent's requests on their way to the ingest server, as a step system.

 A request that was sent may be processed at any later time, any number of times, or never, and
 a reply may arrive or not. Handlers of several requests interleave at their await points, any
 handler may die between two stages, and other devices send whatever they like.
 */
module Network {
  import opened Encoding
  import opened Wrappers
  import opened Ingest

  /** The device id of the agent; every other device id belongs to somebody else. */
  const AGENT: DeviceId := 0

  datatype Bundle = Bundle(meta: Meta, bytes: Bytes)

  /** Every bundle the agent has taken into its queue so far. */
  type Registry = map<BundleId, Bundle>

  /** A collected bundle is described by the hash and the length of its own bytes. */
  ghost predicate RegistryOk(reg: Registry) {
    forall b :: b in reg ==> Describes(reg[b].meta, b, reg[b].bytes)
  }

  predicate Describes(meta: Meta, b: BundleId, bytes: Bytes) {
    meta.bundle == b && meta.sha == Sha256(bytes) && meta.size == |bytes|
  }

  datatype Handler = Handler(device: DeviceId, req: Request, task: Task)

  /**
   `sent` and `replies` record the agent's requests and the replies to them. `torn` collects the
   rows for which a handler died after reserving a chunk's range and before it had written all of it.
   */
  datatype Net = Net(
    server: Server,
    sent: set<Request>,
    handlers: multiset<Handler>,
    replies: set<(Request, Reply)>,
    torn: set<nat>)

  const EMPTY_NET := Net(EMPTY_SERVER, {}, multiset{}, {}, {})

  datatype NetEvent =
    | Send(bundle: BundleId, req: Request)
    | Receive(device: DeviceId, req: Request)
    | Advance(handler: Handler, keepStaging: bool)
    | Die(handler: Handler, wrote: nat)

  /** The server answered an init request for this metadata with this upload id. */
  ghost predicate Granted(net: Net, meta: Meta, id: Uuid) {
    exists chunkSize, resume :: (InitRequest(meta), InitOk(id, chunkSize, resume)) in net.replies
  }

  /** The server answered a finalize request of this bundle's upload with success. */
  ghost predicate Acknowledged(net: Net, meta: Meta) {
    exists id, session ::
      Granted(net, meta, id) && (FinalizeRequest(id, meta.sha), FinalizeOk(session)) in net.replies
  }

  /** The requests an uploader may issue for a bundle, in any order. */
  ghost predicate MaySend(bundle: Bundle, net: Net, req: Request) {
    match req
    case InitRequest(meta) => meta == bundle.meta
    case ChunkRequest(id, offset, data) =>
      Granted(net, bundle.meta, id) && offset + |data| <= |bundle.bytes|
      && data == bundle.bytes[offset..offset + |data|]
    case FinalizeRequest(id, sha) => Granted(net, bundle.meta, id) && sha == bundle.meta.sha
  }

  ghost predicate NetEnabled(reg: Registry, net: Net, e: NetEvent) {
    match e
    case Send(b, req) => b in reg && MaySend(reg[b], net, req)
    case Receive(device, req) => device == AGENT ==> req in net.sent
    case Advance(h, _) => h in net.handlers && TaskFits(net.server, h.task)
    case Die(h, _) => h in net.handlers
  }

  function Record(net: Net, device: DeviceId, req: Request, o: StageResult): Net {
    match o
    case Answer(reply) =>
      if device == AGENT then net.(replies := net.replies + {(req, reply)}) else net
    case Continue(task) => net.(handlers := net.handlers + multiset{Handler(device, req, task)})
  }

  ghost function NetNext(reg: Registry, net: Net, e: NetEvent): Net
    requires NetEnabled(reg, net, e)
  {
    match e
    case Send(_, req) => net.(sent := net.sent + {req})
    case Receive(device, req) =>
      var (s, o) := Begin(net.server, device, req);
      Record(net.(server := s), device, req, o)
    case Advance(h, keepStaging) =>
      var (s, o) := Resume(net.server, h.task, keepStaging);
      Record(net.(server := s, handlers := net.handlers - multiset{h}), h.device, h.req, o)
    case Die(h, wrote) =>
      net.(server := TearWrite(net.server, h.task, wrote), handlers := net.handlers - multiset{h},
           torn := if h.task.WriteChunk? then net.torn + {h.task.row} else net.torn)
  }

  ghost predicate NetLegal(reg: Registry, net: Net, es: seq<NetEvent>)
    decreases |es|
  {
    es != [] ==> NetEnabled(reg, net, es[0]) && NetLegal(reg, NetNext(reg, net, es[0]), es[1..])
  }

  ghost function NetExec(reg: Registry, net: Net, es: seq<NetEvent>): Net
    requires NetLegal(reg, net, es)
    decreases |es|
  {
    if es == [] then net else NetExec(reg, NetNext(reg, net, es[0]), es[1..])
  }

  lemma NetCons(reg: Registry, net: Net, e: NetEvent, es: seq<NetEvent>)
    requires NetEnabled(reg, net, e) && NetLegal(reg, NetNext(reg, net, e), es)
    ensures NetLegal(reg, net, [e] + es) && NetExec(reg, net, [e] + es) == NetExec(reg, NetNext(reg, net, e), es)
  {
    assert ([e] + es)[1..] == es;
  }

  lemma {:induction false} NetCompose(reg: Registry, net: Net, es: seq<NetEvent>, fs: seq<NetEvent>)
    requires NetLegal(reg, net, es) && NetLegal(reg, NetExec(reg, net, es), fs)
    ensures NetLegal(reg, net, es + fs)
    ensures NetExec(reg, net, es + fs) == NetExec(reg, NetExec(reg, net, es), fs)
    decreases |es|
  {
    hide NetEnabled, NetNext;
    if es == [] {
      assert es + fs == fs;
    } else {
      assert (es + fs)[1..] == es[1..] + fs;
      NetCompose(reg, NetNext(reg, net, es[0]), es[1..], fs);
    }
  }

  /** What was sent and what was answered is never forgotten. */
  lemma {:induction false} TranscriptGrows(reg: Registry, net: Net, es: seq<NetEvent>)
    requires NetLegal(reg, net, es)
    ensures net.sent <= NetExec(reg, net, es).sent && net.replies <= NetExec(reg, net, es).replies
    decreases |es|
  {
    hide Begin, Resume;
    if es != [] {
      TranscriptGrows(reg, NetNext(reg, net, es[0]), es[1..]);
    }
  }

  ghost predicate IsRun(reg: Registry, net: Net, net': Net, es: seq<NetEvent>) {
    NetLegal(reg, net, es) && NetExec(reg, net, es) == net'
  }

  /** Some run of events takes one network state to the other. */
  ghost predicate Leads(reg: Registry, net: Net, net': Net) {
    (exists es :: IsRun(reg, net, net', es)) && net.sent <= net'.sent && net.replies <= net'.replies
  }

  lemma LeadsNowhere(reg: Registry, net: Net)
    ensures Leads(reg, net, net)
  {
    assert IsRun(reg, net, net, []);
  }

  lemma LeadsStep(reg: Registry, net: Net, e: NetEvent)
    requires NetEnabled(reg, net, e)
    ensures Leads(reg, net, NetNext(reg, net, e))
  {
    NetCons(reg, net, e, []);
    assert [e] + [] == [e];
    assert IsRun(reg, net, NetNext(reg, net, e), [e]);
    TranscriptGrows(reg, net, [e]);
  }

  lemma LeadsOn(reg: Registry, a: Net, b: Net, c: Net)
    requires Leads(reg, a, b) && Leads(reg, b, c)
    ensures Leads(reg, a, c)
  {
    var es :| IsRun(reg, a, b, es);
    var fs :| IsRun(reg, b, c, fs);
    NetCompose(reg, a, es, fs);
    assert IsRun(reg, a, c, es + fs);
  }

  // ---------------------------------------------------------------------------------------------
  // The invariant
  // ---------------------------------------------------------------------------------------------

  /** A row of the agent's own device. */
  predicate OwnRow(s: Server, row: nat) {
    row < |s.uploads| && s.uploads[row].device == AGENT
  }

  ghost function BytesOf(reg: Registry, s: Server, row: nat): Bytes
    requires row < |s.uploads|
  {
    var b := s.uploads[row].meta.bundle;
    if b in reg then reg[b].bytes else []
  }

  ghost predicate UploadsOk(reg: Registry, s: Server) {
    forall row: nat :: OwnRow(s, row) ==>
      var u := s.uploads[row];
      u.meta.bundle in reg && reg[u.meta.bundle].meta == u.meta && u.offset <= u.meta.size
  }

  /** Every committed session of the agent holds exactly the bytes of its bundle. */
  ghost predicate SessionsOk(reg: Registry, s: Server) {
    forall b :: (AGENT, b) in s.sessions ==>
      b in reg && s.sessions[(AGENT, b)].blob == reg[b].bytes && s.sessions[(AGENT, b)].id.SessionUuid?
  }

  predicate SliceOf(bytes: Bytes, offset: nat, data: Bytes) {
    offset + |data| <= |bytes| && data == bytes[offset..offset + |data|]
  }

  ghost predicate SentOk(reg: Registry, net: Net) {
    forall req :: req in net.sent ==> RequestOk(reg, net.server, req)
  }

  ghost predicate RequestOk(reg: Registry, s: Server, req: Request) {
    match req
    case InitRequest(meta) => meta.bundle in reg && reg[meta.bundle].meta == meta
    case ChunkRequest(id, offset, data) =>
      id.UploadUuid? ==> OwnRow(s, id.index) && SliceOf(BytesOf(reg, s, id.index), offset, data)
    case FinalizeRequest(id, sha) => true
  }

  ghost predicate HandlerOk(reg: Registry, s: Server, h: Handler) {
    TaskFits(s, h.task) &&
    match h.task
    case CreateUpload(device, meta) =>
      device == h.device && h.req == InitRequest(meta)
      && (device == AGENT ==> meta.bundle in reg && reg[meta.bundle].meta == meta)
    case WriteChunk(row, offset, data) =>
      s.uploads[row].device == h.device && h.req.ChunkRequest? && data != []
      && (h.device == AGENT ==>
            SliceOf(BytesOf(reg, s, row), offset, data) && offset + |data| <= s.uploads[row].offset)
    case ShipBlob(row) =>
      s.uploads[row].device == h.device && FinalizesRow(h.req, row)
      && (h.device == AGENT && row in s.staging ==> s.staging[row] == BytesOf(reg, s, row))
    case MarkFinalized(row, session, blob) =>
      s.uploads[row].device == h.device && FinalizesRow(h.req, row)
      && session.SessionUuid? && (h.device == AGENT ==> blob == BytesOf(reg, s, row))
    case InsertSession(row, session, blob) =>
      s.uploads[row].device == h.device && FinalizesRow(h.req, row)
      && session.SessionUuid? && (h.device == AGENT ==> blob == BytesOf(reg, s, row))
  }

  predicate FinalizesRow(req: Request, row: nat) {
    req.FinalizeRequest? && req.upload == UploadUuid(row)
  }

  ghost predicate HandlersOk(reg: Registry, net: Net) {
    forall h :: h in net.handlers ==> HandlerOk(reg, net.server, h)
  }

  ghost predicate ReplyOk(s: Server, req: Request, reply: Reply) {
    match reply
    case InitOk(id, _, _) =>
      req.InitRequest? && (
        (id.UploadUuid? && id.index < |s.uploads| && s.uploads[id.index].device == AGENT
          && s.uploads[id.index].meta == req.meta)
        || (id.SessionUuid? && (AGENT, req.meta.bundle) in s.sessions))
    case ChunkOk(_) => req.ChunkRequest?
    case FinalizeOk(_) =>
      req.FinalizeRequest? && req.upload.UploadUuid? && req.upload.index < |s.uploads|
      && (AGENT, s.uploads[req.upload.index].meta.bundle) in s.sessions
    case Refused(_) => true
  }

  ghost predicate RepliesOk(net: Net) {
    forall p :: p in net.replies ==> ReplyOk(net.server, p.0, p.1)
  }

  /** Position p of a row's staging file is reserved for a handler that has not written it yet. */
  ghost predicate Pending(net: Net, row: nat, p: nat) {
    exists h :: h in net.handlers && h.task.WriteChunk? && h.task.row == row
                && h.task.offset <= p < h.task.offset + |h.task.data|
  }

  ghost predicate StagedAt(reg: Registry, s: Server, row: nat, p: nat)
    requires row < |s.uploads| && row in s.staging
  {
    p < |s.staging[row]| && p < |BytesOf(reg, s, row)| && s.staging[row][p] == BytesOf(reg, s, row)[p]
  }

  ghost predicate StagedOk(reg: Registry, net: Net) {
    forall row: nat :: OwnRow(net.server, row) && row in net.server.staging ==>
      && |net.server.staging[row]| <= net.server.uploads[row].offset
      && (row !in net.torn ==>
            forall p :: 0 <= p < net.server.uploads[row].offset ==>
              StagedAt(reg, net.server, row, p) || Pending(net, row, p))
  }

  ghost predicate StagingRows(s: Server) {
    forall row: nat :: row in s.staging ==> row < |s.uploads|
  }

  ghost predicate NetCore(reg: Registry, net: Net) {
    && RegistryOk(reg)
    && UploadsOk(reg, net.server)
    && SessionsOk(reg, net.server)
    && SentOk(reg, net)
    && HandlersOk(reg, net)
    && RepliesOk(net)
    && StagedOk(reg, net)
    && StagingRows(net.server)
  }

  ghost predicate NetInv(reg: Registry, net: Net) {
    NetCore(reg, net) && StagedBytesOk(reg, net.server)
  }

  /** A staged byte is the bundle's own or a zero that fills a gap. */
  ghost predicate StagedBytesOk(reg: Registry, s: Server) {
    forall row: nat :: OwnRow(s, row) && row in s.staging ==> OwnOrZero(BytesOf(reg, s, row), s.staging[row])
  }

  ghost predicate OwnOrZero(bytes: Bytes, staged: Bytes) {
    |staged| <= |bytes| && forall p :: 0 <= p < |staged| ==> staged[p] == bytes[p] || staged[p] == 0
  }

  // ---------------------------------------------------------------------------------------------
  // The server only moves forward
  // ---------------------------------------------------------------------------------------------

  /** Rows keep their identity, offsets and finalized flags only rise, sessions stay. */
  ghost predicate Grows(s: Server, s': Server) {
    && |s.uploads| <= |s'.uploads|
    && (forall row :: 0 <= row < |s.uploads| ==>
          && s'.uploads[row].device == s.uploads[row].device
          && s'.uploads[row].meta == s.uploads[row].meta
          && s.uploads[row].offset <= s'.uploads[row].offset
          && (s.uploads[row].finalized ==> s'.uploads[row].finalized))
    && (forall key :: key in s.sessions ==> key in s'.sessions && s'.sessions[key] == s.sessions[key])
  }

  lemma BeginGrows(s: Server, device: DeviceId, req: Request)
    ensures Grows(s, Begin(s, device, req).0)
  {
  }

  lemma ResumeGrows(s: Server, t: Task, keepStaging: bool)
    requires TaskFits(s, t)
    ensures Grows(s, Resume(s, t, keepStaging).0)
  {
  }

  lemma DieGrows(s: Server, t: Task, wrote: nat)
    ensures Grows(s, TearWrite(s, t, wrote))
  {
  }

  lemma NextGrows(reg: Registry, net: Net, e: NetEvent)
    requires NetEnabled(reg, net, e)
    ensures Grows(net.server, NetNext(reg, net, e).server)
  {
    match e
    case Receive(device, req) => BeginGrows(net.server, device, req);
    case Advance(h, keep) => ResumeGrows(net.server, h.task, keep);
    case Die(h, wrote) => DieGrows(net.server, h.task, wrote);
    case Send(_, _) =>
  }

  lemma {:induction false} RunGrows(reg: Registry, net: Net, es: seq<NetEvent>)
    requires NetLegal(reg, net, es)
    ensures Grows(net.server, NetExec(reg, net, es).server)
    decreases |es|
  {
    hide NetNext;
    if es != [] {
      NextGrows(reg, net, es[0]);
      RunGrows(reg, NetNext(reg, net, es[0]), es[1..]);
    }
  }

  lemma LeadsGrows(reg: Registry, net: Net, net': Net)
    requires Leads(reg, net, net')
    ensures Grows(net.server, net'.server)
  {
    var es :| IsRun(reg, net, net', es);
    RunGrows(reg, net, es);
  }

  lemma RequestStaysOk(reg: Registry, s: Server, s': Server, req: Request)
    requires RequestOk(reg, s, req) && Grows(s, s')
    ensures RequestOk(reg, s', req)
  {
  }

  lemma ReplyStaysOk(s: Server, s': Server, req: Request, reply: Reply)
    requires ReplyOk(s, req, reply) && Grows(s, s')
    ensures ReplyOk(s', req, reply)
  {
  }

  lemma TranscriptStaysOk(reg: Registry, net: Net, s': Server)
    requires SentOk(reg, net) && RepliesOk(net) && Grows(net.server, s')
    ensures SentOk(reg, net.(server := s')) && RepliesOk(net.(server := s'))
  {
    forall req | req in net.sent ensures RequestOk(reg, s', req) {
      RequestStaysOk(reg, net.server, s', req);
    }
    forall p | p in net.replies ensures ReplyOk(s', p.0, p.1) {
      ReplyStaysOk(net.server, s', p.0, p.1);
    }
  }

  // ---------------------------------------------------------------------------------------------
  // Every event keeps the invariant
  // ---------------------------------------------------------------------------------------------

  lemma SendKeepsInv(reg: Registry, net: Net, b: BundleId, req: Request)
    requires NetCore(reg, net) && NetEnabled(reg, net, Send(b, req))
    ensures NetCore(reg, NetNext(reg, net, Send(b, req)))
  {
    var net' := NetNext(reg, net, Send(b, req));
    if req.ChunkRequest? {
      var chunkSize, resume :| (InitRequest(reg[b].meta), InitOk(req.upload, chunkSize, resume)) in net.replies;
      assert ReplyOk(net.server, InitRequest(reg[b].meta), InitOk(req.upload, chunkSize, resume));
    }
    assert RequestOk(reg, net.server, req);
    forall row: nat, p: nat | Pending(net, row, p) ensures Pending(net', row, p) {
    }
  }

  /**
   A change of the server that adds no staged bytes, moves no offset and loses no pending write
   keeps the parts of the invariant that talk about staging.
   */
  lemma QuietChangeKeepsInv(reg: Registry, net: Net, net': Net)
    requires NetCore(reg, net)
    requires forall g :: g in net.handlers && g.task.WriteChunk? ==> g in net'.handlers
    requires forall g :: g in net'.handlers && g !in net.handlers ==> HandlerOk(reg, net'.server, g)
    requires net'.torn == net.torn
    requires |net'.server.uploads| == |net.server.uploads|
    requires forall row :: 0 <= row < |net.server.uploads| ==>
               net'.server.uploads[row] == net.server.uploads[row].(finalized := net'.server.uploads[row].finalized)
    requires forall row :: row in net'.server.staging ==>
               row in net.server.staging && net'.server.staging[row] == net.server.staging[row]
    ensures HandlersOk(reg, net') && StagedOk(reg, net') && UploadsOk(reg, net'.server) && StagingRows(net'.server)
  {
    forall g | g in net'.handlers && g in net.handlers ensures HandlerOk(reg, net'.server, g) {
      assert HandlerOk(reg, net.server, g);
    }
    forall r: nat, p: nat | Pending(net, r, p) ensures Pending(net', r, p) {
      var g :| g in net.handlers && g.task.WriteChunk? && g.task.row == r
               && g.task.offset <= p < g.task.offset + |g.task.data|;
      assert g in net'.handlers;
    }
    forall r: nat | OwnRow(net'.server, r) && r in net'.server.staging && r !in net'.torn
      ensures forall p :: 0 <= p < net'.server.uploads[r].offset ==>
                StagedAt(reg, net'.server, r, p) || Pending(net', r, p)
    {
      assert OwnRow(net.server, r);
      forall p | 0 <= p < net'.server.uploads[r].offset
        ensures StagedAt(reg, net'.server, r, p) || Pending(net', r, p)
      {
        assert StagedAt(reg, net.server, r, p) || Pending(net, r, p);
      }
    }
    forall r: nat | OwnRow(net'.server, r)
      ensures var u := net'.server.uploads[r];
              u.meta.bundle in reg && reg[u.meta.bundle].meta == u.meta && u.offset <= u.meta.size
    {
      assert OwnRow(net.server, r);
    }
  }

  /** An immediate answer to the agent says only what the tables bear out. */
  lemma AnswerIsOk(reg: Registry, s: Server, req: Request)
    requires SessionsOk(reg, s) && Begin(s, AGENT, req).1.Answer?
    ensures ReplyOk(Begin(s, AGENT, req).0, req, Begin(s, AGENT, req).1.reply)
  {
  }

  lemma AnswerIsQuiet(s: Server, device: DeviceId, req: Request)
    requires Begin(s, device, req).1.Answer?
    ensures var s' := Begin(s, device, req).0;
            s'.uploads == s.uploads && s'.sessions == s.sessions
            && forall row :: row in s'.staging ==> row in s.staging && s'.staging[row] == s.staging[row]
  {
  }

  /** Answering at once leaves the handlers alone; only the staging file of a rejected finalize goes. */
  lemma AnswerKeepsInv(reg: Registry, net: Net, device: DeviceId, req: Request)
    requires NetCore(reg, net) && NetEnabled(reg, net, Receive(device, req))
    requires Begin(net.server, device, req).1.Answer?
    ensures NetCore(reg, NetNext(reg, net, Receive(device, req)))
  {
    hide Begin, HandlerOk, RequestOk, ReplyOk, Grows;
    var net' := NetNext(reg, net, Receive(device, req));
    AnswerIsQuiet(net.server, device, req);
    BeginGrows(net.server, device, req);
    TranscriptStaysOk(reg, net, net'.server);
    if device == AGENT {
      AnswerIsOk(reg, net.server, req);
    }
    QuietChangeKeepsInv(reg, net, net');
  }

  lemma BeginInitKeepsInv(reg: Registry, net: Net, device: DeviceId, meta: Meta)
    requires NetCore(reg, net) && NetEnabled(reg, net, Receive(device, InitRequest(meta)))
    requires BeginInit(net.server, device, meta).Continue?
    ensures NetCore(reg, NetNext(reg, net, Receive(device, InitRequest(meta))))
  {
    var net' := NetNext(reg, net, Receive(device, InitRequest(meta)));
    assert net'.server == net.server;
    var h := Handler(device, InitRequest(meta), CreateUpload(device, meta));
    assert device == AGENT ==> RequestOk(reg, net.server, InitRequest(meta));
    assert HandlerOk(reg, net.server, h);
    forall row: nat, p: nat | Pending(net, row, p) ensures Pending(net', row, p) {
    }
  }

  lemma BeginFinalizeKeepsInv(reg: Registry, net: Net, device: DeviceId, id: Uuid, sha: Digest)
    requires NetCore(reg, net) && NetEnabled(reg, net, Receive(device, FinalizeRequest(id, sha)))
    requires BeginFinalize(net.server, device, id, sha).1.Continue?
    ensures NetCore(reg, NetNext(reg, net, Receive(device, FinalizeRequest(id, sha))))
  {
    var net' := NetNext(reg, net, Receive(device, FinalizeRequest(id, sha)));
    assert net'.server == net.server;
    var row := id.index;
    var h := Handler(device, FinalizeRequest(id, sha), ShipBlob(row));
    if device == AGENT {
      assert OwnRow(net.server, row);
    }
    assert HandlerOk(reg, net.server, h);
    forall row: nat, p: nat | Pending(net, row, p) ensures Pending(net', row, p) {
    }
  }

  lemma BeginChunkKeepsInv(reg: Registry, net: Net, device: DeviceId, id: Uuid, offset: u64, data: Bytes)
    requires NetCore(reg, net) && NetEnabled(reg, net, Receive(device, ChunkRequest(id, offset, data)))
    requires BeginChunk(net.server, device, id, offset, data).1.Continue?
    ensures NetCore(reg, NetNext(reg, net, Receive(device, ChunkRequest(id, offset, data))))
  {
    var req := ChunkRequest(id, offset, data);
    var net' := NetNext(reg, net, Receive(device, req));
    var s, s' := net.server, net'.server;
    var row := id.index;
    var h := Handler(device, req, WriteChunk(row, offset, data));
    BeginGrows(s, device, req);
    TranscriptStaysOk(reg, net, s');
    if device == AGENT {
      assert RequestOk(reg, s, req);
      assert OwnRow(s, row);
      assert |BytesOf(reg, s, row)| == s.uploads[row].meta.size;
    }
    assert HandlerOk(reg, s', h);
    forall g | g in net'.handlers ensures HandlerOk(reg, s', g) {
      if g != h {
        assert HandlerOk(reg, s, g);
      }
    }
    forall r: nat, p: nat | Pending(net, r, p) ensures Pending(net', r, p) {
    }
    forall r: nat | OwnRow(s', r) && r in s'.staging && r !in net'.torn
      ensures forall p :: 0 <= p < s'.uploads[r].offset ==> StagedAt(reg, s', r, p) || Pending(net', r, p)
    {
      assert OwnRow(s, r);
      forall p | 0 <= p < s'.uploads[r].offset ensures StagedAt(reg, s', r, p) || Pending(net', r, p) {
        if p < s.uploads[r].offset {
          assert StagedAt(reg, s, r, p) || Pending(net, r, p);
        } else {
          assert h in net'.handlers;
        }
      }
    }
  }

  lemma ReceiveKeepsInv(reg: Registry, net: Net, device: DeviceId, req: Request)
    requires NetCore(reg, net) && NetEnabled(reg, net, Receive(device, req))
    ensures NetCore(reg, NetNext(reg, net, Receive(device, req)))
  {
    if Begin(net.server, device, req).1.Answer? {
      AnswerKeepsInv(reg, net, device, req);
    } else {
      match req
      case InitRequest(meta) => BeginInitKeepsInv(reg, net, device, meta);
      case ChunkRequest(id, offset, data) => BeginChunkKeepsInv(reg, net, device, id, offset, data);
      case FinalizeRequest(id, sha) => BeginFinalizeKeepsInv(reg, net, device, id, sha);
    }
  }

  lemma CreateKeepsHandlers(reg: Registry, net: Net, h: Handler, keep: bool)
    requires NetCore(reg, net) && NetEnabled(reg, net, Advance(h, keep)) && h.task.CreateUpload?
    ensures HandlersOk(reg, NetNext(reg, net, Advance(h, keep)))
  {
    var net' := NetNext(reg, net, Advance(h, keep));
    forall g | g in net'.handlers ensures HandlerOk(reg, net'.server, g) {
      assert HandlerOk(reg, net.server, g);
    }
  }

  lemma CreateKeepsStaged(reg: Registry, net: Net, h: Handler, keep: bool)
    requires NetCore(reg, net) && NetEnabled(reg, net, Advance(h, keep)) && h.task.CreateUpload?
    ensures StagedOk(reg, NetNext(reg, net, Advance(h, keep)))
  {
    var net' := NetNext(reg, net, Advance(h, keep));
    var s, s' := net.server, net'.server;
    forall r: nat | OwnRow(s', r) && r in s'.staging && r !in net'.torn && r < |s.uploads|
      ensures forall p :: 0 <= p < s'.uploads[r].offset ==> StagedAt(reg, s', r, p) || Pending(net', r, p)
    {
      assert OwnRow(s, r) && BytesOf(reg, s', r) == BytesOf(reg, s, r);
      forall p | 0 <= p < s'.uploads[r].offset ensures StagedAt(reg, s', r, p) || Pending(net', r, p) {
        if Pending(net, r, p) {
          var g :| g in net.handlers && g.task.WriteChunk? && g.task.row == r
                   && g.task.offset <= p < g.task.offset + |g.task.data|;
          assert g in net'.handlers;
        } else {
          assert StagedAt(reg, s, r, p);
        }
      }
    }
  }

  lemma CreateKeepsInv(reg: Registry, net: Net, h: Handler, keep: bool)
    requires NetCore(reg, net) && NetEnabled(reg, net, Advance(h, keep)) && h.task.CreateUpload?
    ensures NetCore(reg, NetNext(reg, net, Advance(h, keep)))
  {
    var s' := NetNext(reg, net, Advance(h, keep)).server;
    ResumeGrows(net.server, h.task, keep);
    TranscriptStaysOk(reg, net, s');
    assert HandlerOk(reg, net.server, h);
    CreateKeepsHandlers(reg, net, h, keep);
    CreateKeepsStaged(reg, net, h, keep);
  }

  /** Writing a slice of some bytes over those bytes changes nothing. */
  lemma RewriteIsIdentity(bytes: Bytes, offset: nat, data: Bytes)
    requires SliceOf(bytes, offset, data)
    ensures WriteAt(bytes, offset, data) == bytes
  {
  }

  lemma PartOfSlice(bytes: Bytes, offset: nat, data: Bytes, wrote: nat)
    requires SliceOf(bytes, offset, data)
    ensures SliceOf(bytes, offset, Written(data, wrote))
  {
  }

  lemma WriteKeepsHandlers(reg: Registry, net: Net, h: Handler, keep: bool)
    requires NetCore(reg, net) && NetEnabled(reg, net, Advance(h, keep)) && h.task.WriteChunk?
    requires h.task.row in net.server.staging
    ensures HandlersOk(reg, NetNext(reg, net, Advance(h, keep)))
  {
    var net' := NetNext(reg, net, Advance(h, keep));
    var s, s' := net.server, net'.server;
    assert HandlerOk(reg, s, h);
    forall g | g in net'.handlers ensures HandlerOk(reg, s', g) {
      assert HandlerOk(reg, s, g);
      if g.task.ShipBlob? && g.task.row == h.task.row && g.device == AGENT {
        RewriteIsIdentity(s.staging[h.task.row], h.task.offset, h.task.data);
      }
    }
  }

  /** The write settles its own range and leaves every other position as it was. */
  lemma WriteKeepsPosition(reg: Registry, net: Net, h: Handler, keep: bool, r: nat, p: nat)
    requires NetEnabled(reg, net, Advance(h, keep)) && h.task.WriteChunk? && h.task.row in net.server.staging
    requires h.task.row == r ==> SliceOf(BytesOf(reg, net.server, r), h.task.offset, h.task.data)
    requires r < |net.server.uploads| && r in net.server.staging
    requires StagedAt(reg, net.server, r, p) || Pending(net, r, p)
    ensures var net' := NetNext(reg, net, Advance(h, keep));
            r < |net'.server.uploads| && r in net'.server.staging
            && (StagedAt(reg, net'.server, r, p) || Pending(net', r, p))
  {
    var net' := NetNext(reg, net, Advance(h, keep));
    var mine := r == h.task.row && h.task.offset <= p < h.task.offset + |h.task.data|;
    assert mine ==> StagedAt(reg, net'.server, r, p);
    if !mine && Pending(net, r, p) {
      var g :| g in net.handlers && g.task.WriteChunk? && g.task.row == r
               && g.task.offset <= p < g.task.offset + |g.task.data|;
      assert g in net'.handlers;
    }
  }

  lemma WriteKeepsStaged(reg: Registry, net: Net, h: Handler, keep: bool)
    requires NetCore(reg, net) && NetEnabled(reg, net, Advance(h, keep)) && h.task.WriteChunk?
    requires h.task.row in net.server.staging
    ensures StagedOk(reg, NetNext(reg, net, Advance(h, keep)))
  {
    hide RequestOk, ReplyOk, Begin, Pending, StagedAt;
    var net' := NetNext(reg, net, Advance(h, keep));
    var s, s' := net.server, net'.server;
    assert HandlerOk(reg, s, h);
    forall r: nat | OwnRow(s', r) && r in s'.staging && r !in net'.torn
      ensures forall p :: 0 <= p < s'.uploads[r].offset ==> StagedAt(reg, s', r, p) || Pending(net', r, p)
    {
      assert OwnRow(s, r);
      forall p: nat | p < s'.uploads[r].offset ensures StagedAt(reg, s', r, p) || Pending(net', r, p) {
        WriteKeepsPosition(reg, net, h, keep, r, p);
      }
    }
  }

  lemma WriteKeepsInv(reg: Registry, net: Net, h: Handler, keep: bool)
    requires NetCore(reg, net) && NetEnabled(reg, net, Advance(h, keep)) && h.task.WriteChunk?
    requires h.task.row in net.server.staging
    ensures NetCore(reg, NetNext(reg, net, Advance(h, keep)))
  {
    hide RequestOk, ReplyOk, HandlersOk, StagedOk, RepliesOk, Grows, Begin;
    ResumeGrows(net.server, h.task, keep);
    TranscriptStaysOk(reg, net, NetNext(reg, net, Advance(h, keep)).server);
    WriteKeepsHandlers(reg, net, h, keep);
    WriteKeepsStaged(reg, net, h, keep);
    WriteReplyOk(reg, net, h, keep);
  }

  lemma WriteReplyOk(reg: Registry, net: Net, h: Handler, keep: bool)
    requires NetCore(reg, net) && NetEnabled(reg, net, Advance(h, keep)) && h.task.WriteChunk?
    requires h.task.row in net.server.staging
    requires RepliesOk(net.(server := NetNext(reg, net, Advance(h, keep)).server))
    ensures RepliesOk(NetNext(reg, net, Advance(h, keep)))
  {
    assert HandlerOk(reg, net.server, h);
  }

  /** A handler that finds its staging file gone answers with an error and changes nothing else. */
  lemma FailedStageKeepsInv(reg: Registry, net: Net, h: Handler, keep: bool)
    requires NetCore(reg, net) && NetEnabled(reg, net, Advance(h, keep))
    requires (h.task.WriteChunk? || h.task.ShipBlob?) && h.task.row !in net.server.staging
    ensures NetCore(reg, NetNext(reg, net, Advance(h, keep)))
  {
    var net' := NetNext(reg, net, Advance(h, keep));
    assert net'.server == net.server;
    HandlerLeavesOk(reg, net, net', h);
  }

  /** Pending writes of rows that still have a staging file survive another handler's departure. */
  lemma HandlerLeavesOk(reg: Registry, net: Net, net': Net, h: Handler)
    requires StagedOk(reg, net) && HandlersOk(reg, net) && h in net.handlers
    requires net'.server == net.server && net'.handlers == net.handlers - multiset{h} && net.torn <= net'.torn
    requires h.task.WriteChunk? && h.task.row in net.server.staging ==> h.task.row in net'.torn
    ensures StagedOk(reg, net') && HandlersOk(reg, net')
  {
    forall row: nat | OwnRow(net.server, row) && row in net.server.staging && row !in net'.torn
      ensures forall p :: 0 <= p < net.server.uploads[row].offset ==>
                StagedAt(reg, net.server, row, p) || Pending(net', row, p)
    {
      forall p | 0 <= p < net.server.uploads[row].offset
        ensures StagedAt(reg, net.server, row, p) || Pending(net', row, p)
      {
        if Pending(net, row, p) {
          var g :| g in net.handlers && g.task.WriteChunk? && g.task.row == row
                   && g.task.offset <= p < g.task.offset + |g.task.data|;
          assert g in net'.handlers;
        }
      }
    }
  }

  lemma ShipKeepsInv(reg: Registry, net: Net, h: Handler, keep: bool)
    requires NetCore(reg, net) && NetEnabled(reg, net, Advance(h, keep)) && h.task.ShipBlob?
    requires h.task.row in net.server.staging
    ensures NetCore(reg, NetNext(reg, net, Advance(h, keep)))
  {
    var net' := NetNext(reg, net, Advance(h, keep));
    var s, s' := net.server, net'.server;
    var row := h.task.row;
    ResumeGrows(s, h.task, keep);
    TranscriptStaysOk(reg, net, s');
    assert HandlerOk(reg, s, h);
    var h' := Handler(h.device, h.req, MarkFinalized(row, SessionUuid(s.minted), s.staging[row]));
    assert HandlerOk(reg, s', h');
    QuietChangeKeepsInv(reg, net, net');
  }

  lemma MarkKeepsInv(reg: Registry, net: Net, h: Handler, keep: bool)
    requires NetCore(reg, net) && NetEnabled(reg, net, Advance(h, keep)) && h.task.MarkFinalized?
    ensures NetCore(reg, NetNext(reg, net, Advance(h, keep)))
  {
    hide RequestOk, ReplyOk, Begin, Pending, StagedAt;
    var net' := NetNext(reg, net, Advance(h, keep));
    var s, s' := net.server, net'.server;
    ResumeGrows(s, h.task, keep);
    TranscriptStaysOk(reg, net, s');
    assert HandlerOk(reg, s, h);
    var h' := Handler(h.device, h.req, InsertSession(h.task.row, h.task.session, h.task.blob));
    assert HandlerOk(reg, s', h');
    QuietChangeKeepsInv(reg, net, net');
  }

  /** What a handler commits is what its row's bundle holds, and so is what it answers. */
  lemma InsertIsExact(reg: Registry, net: Net, h: Handler, keep: bool)
    requires UploadsOk(reg, net.server) && SessionsOk(reg, net.server) && HandlerOk(reg, net.server, h)
    requires h.task.InsertSession?
    ensures var (s', o) := Resume(net.server, h.task, keep);
            SessionsOk(reg, s') && o.Answer? && (h.device == AGENT ==> ReplyOk(s', h.req, o.reply))
  {
    assert h.device == AGENT ==> OwnRow(net.server, h.task.row);
  }

  lemma InsertKeepsInv(reg: Registry, net: Net, h: Handler, keep: bool)
    requires NetCore(reg, net) && NetEnabled(reg, net, Advance(h, keep)) && h.task.InsertSession?
    ensures NetCore(reg, NetNext(reg, net, Advance(h, keep)))
  {
    var net' := NetNext(reg, net, Advance(h, keep));
    assert HandlerOk(reg, net.server, h);
    hide RequestOk, ReplyOk, HandlerOk, SessionsOk, Grows, Begin;
    ResumeGrows(net.server, h.task, keep);
    TranscriptStaysOk(reg, net, net'.server);
    InsertIsExact(reg, net, h, keep);
    QuietChangeKeepsInv(reg, net, net');
  }

  lemma TornWriteKeepsHandlers(reg: Registry, net: Net, h: Handler, wrote: nat)
    requires NetCore(reg, net) && h in net.handlers && h.task.WriteChunk? && h.task.row in net.server.staging
    ensures HandlersOk(reg, NetNext(reg, net, Die(h, wrote)))
  {
    var net' := NetNext(reg, net, Die(h, wrote));
    var s, s' := net.server, net'.server;
    assert HandlerOk(reg, s, h);
    forall g | g in net'.handlers ensures HandlerOk(reg, s', g) {
      assert HandlerOk(reg, s, g);
      if g.task.ShipBlob? && g.task.row == h.task.row && g.device == AGENT {
        PartOfSlice(BytesOf(reg, s, h.task.row), h.task.offset, h.task.data, wrote);
        RewriteIsIdentity(s.staging[h.task.row], h.task.offset, Written(h.task.data, wrote));
      }
    }
  }

  lemma TornWriteKeepsStaged(reg: Registry, net: Net, h: Handler, wrote: nat)
    requires NetCore(reg, net) && h in net.handlers && h.task.WriteChunk? && h.task.row in net.server.staging
    ensures StagedOk(reg, NetNext(reg, net, Die(h, wrote)))
  {
    hide RequestOk, ReplyOk, Begin, Written;
    var net' := NetNext(reg, net, Die(h, wrote));
    var s, s' := net.server, net'.server;
    assert HandlerOk(reg, s, h);
    forall r: nat | OwnRow(s', r) && r in s'.staging && r !in net'.torn
      ensures forall p :: 0 <= p < s'.uploads[r].offset ==> StagedAt(reg, s', r, p) || Pending(net', r, p)
    {
      assert OwnRow(s, r) && r != h.task.row;
      forall p | 0 <= p < s'.uploads[r].offset ensures StagedAt(reg, s', r, p) || Pending(net', r, p) {
        if Pending(net, r, p) {
          var g :| g in net.handlers && g.task.WriteChunk? && g.task.row == r
                   && g.task.offset <= p < g.task.offset + |g.task.data|;
          assert g in net'.handlers;
        }
      }
    }
  }

  lemma TornWriteKeepsTables(reg: Registry, net: Net, h: Handler, wrote: nat)
    requires NetCore(reg, net) && h in net.handlers
    ensures var net' := NetNext(reg, net, Die(h, wrote));
            && UploadsOk(reg, net'.server) && SessionsOk(reg, net'.server) && StagingRows(net'.server)
            && net'.sent == net.sent && net'.replies == net.replies && Grows(net.server, net'.server)
  {
    hide HandlerOk, StagedOk, HandlersOk, RequestOk, ReplyOk, Written, WriteAt;
    var s, s' := net.server, NetNext(reg, net, Die(h, wrote)).server;
    DieGrows(s, h.task, wrote);
    assert s'.uploads == s.uploads && s'.sessions == s.sessions && s'.staging.Keys == s.staging.Keys;
    assert forall row: nat :: OwnRow(s', row) ==> OwnRow(s, row);
  }

  /** Wherever a handler dies, in the middle of its write too, only its own row is marked as torn. */
  lemma DieKeepsInv(reg: Registry, net: Net, h: Handler, wrote: nat)
    requires NetCore(reg, net) && NetEnabled(reg, net, Die(h, wrote))
    ensures NetCore(reg, NetNext(reg, net, Die(h, wrote)))
  {
    hide HandlerOk, StagedOk, HandlersOk, RequestOk, ReplyOk, UploadsOk, SessionsOk, StagingRows, Grows, WriteAt;
    var net' := NetNext(reg, net, Die(h, wrote));
    TornWriteKeepsTables(reg, net, h, wrote);
    TranscriptStaysOk(reg, net, net'.server);
    if h.task.WriteChunk? && h.task.row in net.server.staging {
      TornWriteKeepsHandlers(reg, net, h, wrote);
      TornWriteKeepsStaged(reg, net, h, wrote);
    } else {
      HandlerLeavesOk(reg, net, net', h);
    }
  }

  lemma BeginAddsNoBytes(reg: Registry, s: Server, device: DeviceId, req: Request)
    requires StagedBytesOk(reg, s)
    ensures StagedBytesOk(reg, Begin(s, device, req).0)
  {
    var s' := Begin(s, device, req).0;
    forall row: nat | OwnRow(s', row) && row in s'.staging
      ensures OwnOrZero(BytesOf(reg, s', row), s'.staging[row])
    {
      assert OwnRow(s, row) && BytesOf(reg, s', row) == BytesOf(reg, s, row);
    }
  }

  /** Writing part of a bundle at its place leaves every byte the bundle's own or a zero. */
  lemma WriteIsOwnOrZero(bytes: Bytes, staged: Bytes, offset: nat, data: Bytes)
    requires SliceOf(bytes, offset, data) && OwnOrZero(bytes, staged)
    ensures OwnOrZero(bytes, WriteAt(staged, offset, data))
  {
  }

  lemma ResumeAddsOwnBytes(reg: Registry, s: Server, h: Handler, keep: bool)
    requires StagedBytesOk(reg, s) && HandlerOk(reg, s, h)
    ensures StagedBytesOk(reg, Resume(s, h.task, keep).0)
  {
    var s' := Resume(s, h.task, keep).0;
    forall row: nat | OwnRow(s', row) && row in s'.staging
      ensures OwnOrZero(BytesOf(reg, s', row), s'.staging[row])
    {
      if row < |s.uploads| {
        assert OwnRow(s, row) && BytesOf(reg, s', row) == BytesOf(reg, s, row);
        if h.task.WriteChunk? && h.task.row == row && row in s.staging {
          WriteIsOwnOrZero(BytesOf(reg, s, row), s.staging[row], h.task.offset, h.task.data);
        }
      }
    }
  }

  lemma TearAddsOwnBytes(reg: Registry, s: Server, h: Handler, wrote: nat)
    requires StagedBytesOk(reg, s) && HandlerOk(reg, s, h)
    ensures StagedBytesOk(reg, TearWrite(s, h.task, wrote))
  {
    hide WriteAt, Written;
    var s' := TearWrite(s, h.task, wrote);
    forall row: nat | OwnRow(s', row) && row in s'.staging
      ensures OwnOrZero(BytesOf(reg, s', row), s'.staging[row])
    {
      assert OwnRow(s, row) && BytesOf(reg, s', row) == BytesOf(reg, s, row);
      if h.task.WriteChunk? && h.task.row == row {
        PartOfSlice(BytesOf(reg, s, row), h.task.offset, h.task.data, wrote);
        WriteIsOwnOrZero(BytesOf(reg, s, row), s.staging[row], h.task.offset, Written(h.task.data, wrote));
      }
    }
  }

  lemma NextKeepsStagedBytes(reg: Registry, net: Net, e: NetEvent)
    requires NetInv(reg, net) && NetEnabled(reg, net, e)
    ensures StagedBytesOk(reg, NetNext(reg, net, e).server)
  {
    match e
    case Send(_, _) =>
    case Receive(device, req) => BeginAddsNoBytes(reg, net.server, device, req);
    case Advance(h, keep) => ResumeAddsOwnBytes(reg, net.server, h, keep);
    case Die(h, wrote) => TearAddsOwnBytes(reg, net.server, h, wrote);
  }

  lemma NextKeepsCore(reg: Registry, net: Net, e: NetEvent)
    requires NetCore(reg, net) && NetEnabled(reg, net, e)
    ensures NetCore(reg, NetNext(reg, net, e))
  {
    hide NetCore, NetEnabled, NetNext;
    match e
    case Send(b, req) => SendKeepsInv(reg, net, b, req);
    case Receive(device, req) => ReceiveKeepsInv(reg, net, device, req);
    case Die(h, wrote) => DieKeepsInv(reg, net, h, wrote);
    case Advance(h, keep) => AdvanceKeepsInv(reg, net, h, keep);
  }

  lemma AdvanceKeepsInv(reg: Registry, net: Net, h: Handler, keep: bool)
    requires NetCore(reg, net) && NetEnabled(reg, net, Advance(h, keep))
    ensures NetCore(reg, NetNext(reg, net, Advance(h, keep)))
  {
    hide NetCore, NetEnabled, NetNext;
    match h.task
    case CreateUpload(_, _) => CreateKeepsInv(reg, net, h, keep);
    case MarkFinalized(_, _, _) => MarkKeepsInv(reg, net, h, keep);
    case InsertSession(_, _, _) => InsertKeepsInv(reg, net, h, keep);
    case WriteChunk(row, _, _) =>
      if row in net.server.staging {
        WriteKeepsInv(reg, net, h, keep);
      } else {
        FailedStageKeepsInv(reg, net, h, keep);
      }
    case ShipBlob(row) =>
      if row in net.server.staging {
        ShipKeepsInv(reg, net, h, keep);
      } else {
        FailedStageKeepsInv(reg, net, h, keep);
      }
  }

  lemma NetNextKeepsInv(reg: Registry, net: Net, e: NetEvent)
    requires NetInv(reg, net) && NetEnabled(reg, net, e)
    ensures NetInv(reg, NetNext(reg, net, e))
  {
    hide NetCore, NetEnabled, NetNext, StagedBytesOk;
    NextKeepsCore(reg, net, e);
    NextKeepsStagedBytes(reg, net, e);
  }

  lemma {:induction false} NetRunKeepsInv(reg: Registry, net: Net, es: seq<NetEvent>)
    requires NetInv(reg, net) && NetLegal(reg, net, es)
    ensures NetInv(reg, NetExec(reg, net, es))
    decreases |es|
  {
    if es != [] {
      NetNextKeepsInv(reg, net, es[0]);
      NetRunKeepsInv(reg, NetNext(reg, net, es[0]), es[1..]);
    }
  }

  /** Taking in another bundle does not disturb what is under way. */
  lemma NewBundleKeepsInv(reg: Registry, net: Net, b: BundleId, bundle: Bundle)
    requires NetInv(reg, net) && b !in reg && Describes(bundle.meta, b, bundle.bytes)
    ensures NetInv(reg[b := bundle], net)
  {
    var reg' := reg[b := bundle];
    var s := net.server;
    assert forall row: nat :: OwnRow(s, row) ==> BytesOf(reg', s, row) == BytesOf(reg, s, row);
    assert StagedBytesOk(reg', s);
    forall req | req in net.sent ensures RequestOk(reg', s, req) {
      assert RequestOk(reg, s, req);
    }
    forall h | h in net.handlers ensures HandlerOk(reg', s, h) {
      assert HandlerOk(reg, s, h);
      assert h.device == AGENT && !h.task.CreateUpload? ==> OwnRow(s, h.task.row);
    }
    forall row: nat, p: nat | OwnRow(s, row) && row in s.staging && StagedAt(reg, s, row, p)
      ensures StagedAt(reg', s, row, p)
    {
    }
  }

  // ---------------------------------------------------------------------------------------------
  // What the invariant is for
  // ---------------------------------------------------------------------------------------------

  /** An acknowledged bundle is committed, and the committed bytes are the bundle's own. */
  lemma AcknowledgedIsCommitted(reg: Registry, net: Net, b: BundleId)
    requires NetInv(reg, net) && b in reg && Acknowledged(net, reg[b].meta)
    ensures (AGENT, b) in net.server.sessions && net.server.sessions[(AGENT, b)].blob == reg[b].bytes
  {
    var meta := reg[b].meta;
    var id, session :| Granted(net, meta, id) && (FinalizeRequest(id, meta.sha), FinalizeOk(session)) in net.replies;
    var chunkSize, resume :| (InitRequest(meta), InitOk(id, chunkSize, resume)) in net.replies;
    assert ReplyOk(net.server, InitRequest(meta), InitOk(id, chunkSize, resume));
    assert ReplyOk(net.server, FinalizeRequest(id, meta.sha), FinalizeOk(session));
  }

  /**
   When no chunk write of an upload is outstanding and none was torn, its staging file is exactly
   the first `offset` bytes of the bundle: nothing skipped, nothing duplicated.
   */
  lemma StagedIsPrefix(reg: Registry, net: Net, row: nat)
    requires NetInv(reg, net) && OwnRow(net.server, row) && row in net.server.staging
    requires row !in net.torn && forall h :: h in net.handlers && h.task.WriteChunk? ==> h.task.row != row
    ensures net.server.uploads[row].offset <= |BytesOf(reg, net.server, row)|
    ensures net.server.staging[row] == BytesOf(reg, net.server, row)[..net.server.uploads[row].offset]
  {
    var offset := net.server.uploads[row].offset;
    forall p | 0 <= p < offset ensures StagedAt(reg, net.server, row, p) {
      assert !Pending(net, row, p);
    }
    if offset > 0 {
      assert StagedAt(reg, net.server, row, offset - 1);
    }
    forall p | 0 <= p < offset ensures net.server.staging[row][p] == BytesOf(reg, net.server, row)[p] {
      assert StagedAt(reg, net.server, row, p);
    }
  }

  /** A complete upload commits exactly when its staging file holds the bundle's bytes and their digest is claimed. */
  lemma FinalizeCommitsIffStagedExactly(reg: Registry, net: Net, row: nat, sha: Digest)
    requires NetInv(reg, net) && OwnRow(net.server, row)
    requires !net.server.uploads[row].finalized && net.server.uploads[row].offset == net.server.uploads[row].meta.size
    requires (AGENT, net.server.uploads[row].meta.bundle) !in net.server.sessions
    ensures var u := net.server.uploads[row];
            var (s', reply) := Handle(net.server, AGENT, FinalizeRequest(UploadUuid(row), sha));
            (AGENT, u.meta.bundle) in s'.sessions
            <==> && sha == Sha256(reg[u.meta.bundle].bytes)
                 && row in net.server.staging && net.server.staging[row] == reg[u.meta.bundle].bytes
  {
    assert net.server.uploads[row].meta.sha == Sha256(reg[net.server.uploads[row].meta.bundle].bytes);
    if row in net.server.staging {
      FinalizeVerdict(net.server, AGENT, row, sha);
    }
  }

  /**
   The same in terms of the bytes: as each staged byte is the bundle's own or a zero, a complete upload
   commits exactly when its staging file has full length and every zero in it is a zero of the bundle.
   */
  lemma FinalizeCommitsIffNoByteIsMissing(reg: Registry, net: Net, row: nat)
    requires NetInv(reg, net) && OwnRow(net.server, row)
    requires !net.server.uploads[row].finalized && net.server.uploads[row].offset == net.server.uploads[row].meta.size
    requires (AGENT, net.server.uploads[row].meta.bundle) !in net.server.sessions
    ensures var u, staging := net.server.uploads[row], net.server.staging;
            var bytes := reg[u.meta.bundle].bytes;
            var (s', reply) := Handle(net.server, AGENT, FinalizeRequest(UploadUuid(row), u.meta.sha));
            (AGENT, u.meta.bundle) in s'.sessions
            <==> row in staging && |staging[row]| == |bytes|
                 && forall p: nat :: p < |bytes| && staging[row][p] == 0 ==> bytes[p] == 0
  {
    FinalizeCommitsIffStagedExactly(reg, net, row, net.server.uploads[row].meta.sha);
    hide Handle;
    var staging, bytes := net.server.staging, BytesOf(reg, net.server, row);
    if row in staging && |staging[row]| == |bytes| {
      assert OwnOrZero(bytes, staging[row]);
      if forall p: nat :: p < |bytes| && staging[row][p] == 0 ==> bytes[p] == 0 {
        assert staging[row] == bytes;
      }
    }
  }

  // ---------------------------------------------------------------------------------------------
  // A torn chunk write can wedge a bundle for good
  // ---------------------------------------------------------------------------------------------

  /**
   Every upload row of the bundle is at its full offset without a staging file, one of them still
   counts as resumable, and no handler is left that could create a row or commit a session.
   */
  ghost predicate Wedged(net: Net, b: BundleId) {
    && (AGENT, b) !in net.server.sessions
    && HasResumable(net.server, b)
    && (forall row: nat :: row < |net.server.uploads| ==> DriedUp(net.server, row, b))
    && (forall h :: h in net.handlers ==> Harmless(net.server, h, b))
  }

  ghost predicate HasResumable(s: Server, b: BundleId) {
    exists row: nat :: row < |s.uploads| && Resumable(s.uploads[row], AGENT, b)
  }

  ghost predicate DriedUp(s: Server, row: nat, b: BundleId)
    requires row < |s.uploads|
  {
    s.uploads[row].device == AGENT && s.uploads[row].meta.bundle == b ==>
      row !in s.staging && s.uploads[row].offset == s.uploads[row].meta.size
  }

  ghost predicate Harmless(s: Server, h: Handler, b: BundleId) {
    h.device == AGENT ==>
      match h.task
      case CreateUpload(_, meta) => meta.bundle != b
      case MarkFinalized(row, _, _) => row < |s.uploads| && s.uploads[row].meta.bundle != b
      case InsertSession(row, _, _) => row < |s.uploads| && s.uploads[row].meta.bundle != b
      case _ => true
  }

  predicate OfBundle(s: Server, row: nat, b: BundleId) {
    row < |s.uploads| && s.uploads[row].device == AGENT && s.uploads[row].meta.bundle == b
  }

  /** No row, staging file or session of the bundle appears or changes. */
  ghost predicate Frozen(s: Server, s': Server, b: BundleId) {
    && |s.uploads| <= |s'.uploads|
    && (forall row: nat :: OfBundle(s', row, b) ==>
          OfBundle(s, row, b) && s'.uploads[row] == s.uploads[row] && (row in s'.staging ==> row in s.staging))
    && (forall row: nat :: OfBundle(s, row, b) ==> OfBundle(s', row, b))
    && ((AGENT, b) in s'.sessions ==> (AGENT, b) in s.sessions)
    && (forall row: nat :: row < |s.uploads| ==> s'.uploads[row].meta == s.uploads[row].meta)
  }

  lemma BeginFrozen(s: Server, device: DeviceId, req: Request, b: BundleId)
    requires forall row: nat :: row < |s.uploads| ==> DriedUp(s, row, b)
    ensures Frozen(s, Begin(s, device, req).0, b)
  {
    if req.ChunkRequest? && GetUpload(s, device, req.upload).Some? {
      assert DriedUp(s, req.upload.index, b);
    }
  }

  /** A handler that starts on a wedged bundle gets no further than its first stage. */
  lemma BeginHarmless(s: Server, device: DeviceId, req: Request, b: BundleId)
    requires (AGENT, b) !in s.sessions && HasResumable(s, b)
    requires forall row: nat :: row < |s.uploads| ==> DriedUp(s, row, b)
    ensures var (s', o) := Begin(s, device, req);
            o.Continue? ==> Harmless(s', Handler(device, req, o.task), b)
  {
    if req.FinalizeRequest? && GetUpload(s, device, req.upload).Some? {
      assert DriedUp(s, req.upload.index, b);
    }
  }

  lemma ResumeFrozen(s: Server, h: Handler, keep: bool, b: BundleId)
    requires TaskFits(s, h.task) && Harmless(s, h, b)
    requires h.task.CreateUpload? ==> h.task.device == h.device
    requires !h.task.CreateUpload? ==> s.uploads[h.task.row].device == h.device
    ensures Frozen(s, Resume(s, h.task, keep).0, b)
  {
  }

  lemma ResumeHarmless(s: Server, h: Handler, keep: bool, b: BundleId)
    requires TaskFits(s, h.task) && Harmless(s, h, b)
    requires !h.task.CreateUpload? ==> s.uploads[h.task.row].device == h.device && DriedUp(s, h.task.row, b)
    ensures var (s', o) := Resume(s, h.task, keep);
            o.Continue? ==> Harmless(s', Handler(h.device, h.req, o.task), b)
  {
  }

  lemma WedgedChange(net: Net, net': Net, b: BundleId)
    requires Wedged(net, b) && Frozen(net.server, net'.server, b)
    requires forall h :: h in net'.handlers && h !in net.handlers ==> Harmless(net'.server, h, b)
    ensures Wedged(net', b)
  {
    var row: nat :| row < |net.server.uploads| && Resumable(net.server.uploads[row], AGENT, b);
    assert OfBundle(net.server, row, b);
    assert Resumable(net'.server.uploads[row], AGENT, b);
    forall r: nat | r < |net'.server.uploads| ensures DriedUp(net'.server, r, b) {
      if OfBundle(net'.server, r, b) {
        assert DriedUp(net.server, r, b);
      }
    }
    forall h | h in net'.handlers && h in net.handlers ensures Harmless(net'.server, h, b) {
      assert Harmless(net.server, h, b);
    }
  }

  lemma WedgedReceive(reg: Registry, net: Net, b: BundleId, device: DeviceId, req: Request)
    requires Wedged(net, b) && NetEnabled(reg, net, Receive(device, req))
    ensures Wedged(NetNext(reg, net, Receive(device, req)), b)
  {
    BeginFrozen(net.server, device, req, b);
    BeginHarmless(net.server, device, req, b);
    WedgedChange(net, NetNext(reg, net, Receive(device, req)), b);
  }

  lemma WedgedAdvance(reg: Registry, net: Net, b: BundleId, h: Handler, keep: bool)
    requires NetInv(reg, net) && Wedged(net, b) && NetEnabled(reg, net, Advance(h, keep))
    ensures Wedged(NetNext(reg, net, Advance(h, keep)), b)
  {
    assert HandlerOk(reg, net.server, h) && Harmless(net.server, h, b);
    assert !h.task.CreateUpload? ==> DriedUp(net.server, h.task.row, b);
    ResumeFrozen(net.server, h, keep, b);
    ResumeHarmless(net.server, h, keep, b);
    WedgedChange(net, NetNext(reg, net, Advance(h, keep)), b);
  }

  lemma WedgedDie(reg: Registry, net: Net, b: BundleId, h: Handler, wrote: nat)
    requires Wedged(net, b) && NetEnabled(reg, net, Die(h, wrote))
    ensures Wedged(NetNext(reg, net, Die(h, wrote)), b)
  {
    var net' := NetNext(reg, net, Die(h, wrote));
    assert net'.server.uploads == net.server.uploads && net'.server.staging.Keys == net.server.staging.Keys;
    WedgedChange(net, net', b);
  }

  /** Nothing anybody sends ever brings a wedged bundle back. */
  lemma WedgedForever(reg: Registry, net: Net, b: BundleId, e: NetEvent)
    requires NetInv(reg, net) && NetEnabled(reg, net, e) && Wedged(net, b)
    ensures Wedged(NetNext(reg, net, e), b)
  {
    match e
    case Send(_, _) =>
    case Die(h, wrote) => WedgedDie(reg, net, b, h, wrote);
    case Receive(device, req) => WedgedReceive(reg, net, b, device, req);
    case Advance(h, keep) => WedgedAdvance(reg, net, b, h, keep);
  }

  lemma {:induction false} WedgedRun(reg: Registry, net: Net, b: BundleId, es: seq<NetEvent>)
    requires NetInv(reg, net) && NetLegal(reg, net, es) && Wedged(net, b)
    ensures Wedged(NetExec(reg, net, es), b) && (AGENT, b) !in NetExec(reg, net, es).server.sessions
    decreases |es|
  {
    if es != [] {
      WedgedForever(reg, net, b, es[0]);
      NetNextKeepsInv(reg, net, es[0]);
      WedgedRun(reg, NetNext(reg, net, es[0]), b, es[1..]);
    }
  }

  /**
   A complete upload whose staging file is not the bundle is wedged by its first finalize, when no
   other row of the bundle and no handler of it is left.
   */
  lemma RejectedFinalizeWedges(reg: Registry, net: Net, row: nat, req: Request)
    requires NetInv(reg, net) && OwnRow(net.server, row) && req in net.sent
    requires var u := net.server.uploads[row];
             && !u.finalized && u.offset == u.meta.size && (AGENT, u.meta.bundle) !in net.server.sessions
             && req == FinalizeRequest(UploadUuid(row), u.meta.sha)
             && (forall r: nat :: OfBundle(net.server, r, u.meta.bundle) ==> r == row)
             && (forall h :: h in net.handlers ==> Harmless(net.server, h, u.meta.bundle))
    requires row in net.server.staging && net.server.staging[row] != BytesOf(reg, net.server, row)
    ensures Wedged(NetNext(reg, net, Receive(AGENT, req)), net.server.uploads[row].meta.bundle)
  {
    var b := net.server.uploads[row].meta.bundle;
    var net' := NetNext(reg, net, Receive(AGENT, req));
    assert RegistryOk(reg);
    assert net'.server == net.server.(staging := net.server.staging - {row}) && net'.handlers == net.handlers;
    assert Resumable(net'.server.uploads[row], AGENT, b);
    forall r: nat | r < |net'.server.uploads| ensures DriedUp(net'.server, r, b) {
      assert OfBundle(net.server, r, b) ==> r == row;
    }
    forall h | h in net'.handlers ensures Harmless(net'.server, h, b) {
      assert Harmless(net.server, h, b);
    }
  }

  // A one-byte bundle, and the states of a run in which its only chunk write is torn.
  const TINY: Meta := Meta(1, Sha256([7]), 1, EvidenceZip)
  const TINY_INIT := InitRequest(TINY)
  const TINY_CHUNK := ChunkRequest(UploadUuid(0), 0, [7])
  const TINY_FINALIZE := FinalizeRequest(UploadUuid(0), TINY.sha)
  const TINY_GRANTED := Net(
    Server([Upload(AGENT, TINY, 0, false)], map[0 := []], map[], 0),
    {TINY_INIT}, multiset{}, {(TINY_INIT, InitOk(UploadUuid(0), SERVER_CHUNK_SIZE, 0))}, {})
  const TINY_TORN := Net(
    Server([Upload(AGENT, TINY, 1, false)], map[0 := []], map[], 0),
    {TINY_INIT, TINY_CHUNK}, multiset{}, TINY_GRANTED.replies, {0})

  lemma TinyIsGranted(reg: Registry)
    requires reg == map[1 := Bundle(TINY, [7])]
    ensures Leads(reg, EMPTY_NET, TINY_GRANTED)
  {
    var creating := Handler(AGENT, TINY_INIT, CreateUpload(AGENT, TINY));
    var sent := EMPTY_NET.(sent := {TINY_INIT});
    Follows(reg, EMPTY_NET, Send(1, TINY_INIT), sent);
    var begun := sent.(handlers := multiset{creating});
    Follows(reg, sent, Receive(AGENT, TINY_INIT), begun);
    Follows(reg, begun, Advance(creating, false), TINY_GRANTED);
    LeadsOn(reg, EMPTY_NET, sent, begun);
    LeadsOn(reg, EMPTY_NET, begun, TINY_GRANTED);
  }

  lemma TinyIsTorn(reg: Registry)
    requires reg == map[1 := Bundle(TINY, [7])]
    ensures Leads(reg, TINY_GRANTED, TINY_TORN)
  {
    assert Granted(TINY_GRANTED, TINY, UploadUuid(0));
    assert [7][0..1] == [7];
    var writing := Handler(AGENT, TINY_CHUNK, WriteChunk(0, 0, [7]));
    var sent := TINY_GRANTED.(sent := {TINY_INIT, TINY_CHUNK});
    Follows(reg, TINY_GRANTED, Send(1, TINY_CHUNK), sent);
    var reserved := sent.(server := TINY_TORN.server, handlers := multiset{writing});
    Follows(reg, sent, Receive(AGENT, TINY_CHUNK), reserved);
    Follows(reg, reserved, Die(writing, 0), TINY_TORN);
    LeadsOn(reg, TINY_GRANTED, sent, reserved);
    LeadsOn(reg, TINY_GRANTED, reserved, TINY_TORN);
  }

  /** A wedged state is reachable: the handler of the only chunk dies between its two writes. */
  lemma ATornWriteCanWedge() returns (reg: Registry, es: seq<NetEvent>, b: BundleId)
    ensures RegistryOk(reg) && NetLegal(reg, EMPTY_NET, es) && Wedged(NetExec(reg, EMPTY_NET, es), b)
  {
    reg, b := map[1 := Bundle(TINY, [7])], 1;
    TinyIsGranted(reg);
    TinyIsTorn(reg);
    assert Granted(TINY_TORN, TINY, UploadUuid(0));
    var sent := TINY_TORN.(sent := TINY_TORN.sent + {TINY_FINALIZE});
    Follows(reg, TINY_TORN, Send(1, TINY_FINALIZE), sent);
    var wedged := NetNext(reg, sent, Receive(AGENT, TINY_FINALIZE));
    assert wedged.server == TINY_TORN.server.(staging := map[]);
    assert Resumable(wedged.server.uploads[0], AGENT, 1);
    Follows(reg, sent, Receive(AGENT, TINY_FINALIZE), wedged);
    LeadsOn(reg, EMPTY_NET, TINY_GRANTED, TINY_TORN);
    LeadsOn(reg, EMPTY_NET, TINY_TORN, sent);
    LeadsOn(reg, EMPTY_NET, sent, wedged);
    es :| IsRun(reg, EMPTY_NET, wedged, es);
  }

  const TINY_STAGED := Net(
    Server([Upload(AGENT, TINY, 1, false)], map[0 := [7]], map[], 0),
    {TINY_INIT, TINY_CHUNK}, multiset{},
    TINY_GRANTED.replies + {(TINY_CHUNK, ChunkOk(1))}, {})

  const TINY_COMMITTED := Net(
    Server([Upload(AGENT, TINY, 1, true)], map[], map[(AGENT, 1) := Session(SessionUuid(0), [7])], 1),
    {TINY_INIT, TINY_CHUNK, TINY_FINALIZE}, multiset{},
    TINY_STAGED.replies + {(TINY_FINALIZE, FinalizeOk(SessionUuid(0)))}, {})

  lemma TinyIsStaged(reg: Registry)
    requires reg == map[1 := Bundle(TINY, [7])]
    ensures Leads(reg, TINY_GRANTED, TINY_STAGED)
  {
    assert Granted(TINY_GRANTED, TINY, UploadUuid(0));
    assert [7][0..1] == [7];
    var writing := Handler(AGENT, TINY_CHUNK, WriteChunk(0, 0, [7]));
    var sent := TINY_GRANTED.(sent := {TINY_INIT, TINY_CHUNK});
    Follows(reg, TINY_GRANTED, Send(1, TINY_CHUNK), sent);
    var reserved := sent.(server := TINY_TORN.server, handlers := multiset{writing});
    Follows(reg, sent, Receive(AGENT, TINY_CHUNK), reserved);
    assert WriteAt([], 0, [7]) == [7];
    Follows(reg, reserved, Advance(writing, false), TINY_STAGED);
    LeadsOn(reg, TINY_GRANTED, sent, reserved);
    LeadsOn(reg, TINY_GRANTED, reserved, TINY_STAGED);
  }

  const TINY_SHIPPED := TINY_COMMITTED.(
    server := Server([Upload(AGENT, TINY, 1, false)], map[], map[], 1),
    handlers := multiset{Handler(AGENT, TINY_FINALIZE, MarkFinalized(0, SessionUuid(0), [7]))},
    replies := TINY_STAGED.replies)

  lemma TinyIsShipped(reg: Registry)
    requires reg == map[1 := Bundle(TINY, [7])]
    ensures Leads(reg, TINY_STAGED, TINY_SHIPPED)
  {
    assert (TINY_INIT, InitOk(UploadUuid(0), SERVER_CHUNK_SIZE, 0)) in TINY_STAGED.replies;
    assert Granted(TINY_STAGED, TINY, UploadUuid(0));
    var shipping := Handler(AGENT, TINY_FINALIZE, ShipBlob(0));
    var sent := TINY_STAGED.(sent := TINY_COMMITTED.sent);
    Follows(reg, TINY_STAGED, Send(1, TINY_FINALIZE), sent);
    var begun := sent.(handlers := multiset{shipping});
    Follows(reg, sent, Receive(AGENT, TINY_FINALIZE), begun);
    Follows(reg, begun, Advance(shipping, false), TINY_SHIPPED);
    LeadsOn(reg, TINY_STAGED, sent, begun);
    LeadsOn(reg, TINY_STAGED, begun, TINY_SHIPPED);
  }

  lemma TinyIsCommitted(reg: Registry)
    requires reg == map[1 := Bundle(TINY, [7])]
    ensures Leads(reg, TINY_STAGED, TINY_COMMITTED)
  {
    TinyIsShipped(reg);
    var marking := Handler(AGENT, TINY_FINALIZE, MarkFinalized(0, SessionUuid(0), [7]));
    var inserting := Handler(AGENT, TINY_FINALIZE, InsertSession(0, SessionUuid(0), [7]));
    var marked := TINY_SHIPPED.(
      server := TINY_SHIPPED.server.(uploads := TINY_COMMITTED.server.uploads), handlers := multiset{inserting});
    Follows(reg, TINY_SHIPPED, Advance(marking, false), marked);
    Follows(reg, marked, Advance(inserting, false), TINY_COMMITTED);
    LeadsOn(reg, TINY_SHIPPED, marked, TINY_COMMITTED);
    LeadsOn(reg, TINY_STAGED, TINY_SHIPPED, TINY_COMMITTED);
  }

  lemma Follows(reg: Registry, net: Net, e: NetEvent, net': Net)
    requires NetEnabled(reg, net, e) && NetNext(reg, net, e) == net'
    ensures Leads(reg, net, net')
  {
    LeadsStep(reg, net, e);
  }
}
