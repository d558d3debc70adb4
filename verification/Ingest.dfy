/**
 The bundle-ingest server: wire types, the tables behind them, and the three request handlers.

 A handler is a sequence of stages separated by the points where it awaits the database or the
 blob store. Other handlers may run between two stages, and a handler may die between them, so a
 stage returns either a reply or the task that is still to be done.
 */
module Ingest {
  import opened Encoding
  import opened Wrappers

  type u64 = n: int | 0 <= n < 0x1_0000_0000_0000_0000
  type BundleId = nat
  type DeviceId = nat

  const U64_MAX: u64 := 0xFFFF_FFFF_FFFF_FFFF

  /** SHA-256 as a collision-free hash: a digest determines the bytes it was taken from. */
  datatype Digest = Sha256(message: Bytes) | Malformed

  datatype ContentKind = EvidenceZip | NdjsonEntries | RawFile | Unknown

  datatype Meta = Meta(bundle: BundleId, sha: Digest, size: u64, kind: ContentKind)

  /** Upload ids and session ids are drawn from the same random space and never coincide. */
  datatype Uuid = UploadUuid(index: nat) | SessionUuid(number: nat)

  datatype Request =
    | InitRequest(meta: Meta)
    | ChunkRequest(upload: Uuid, offset: u64, data: Bytes)
    | FinalizeRequest(upload: Uuid, sha: Digest)

  datatype Reply =
    | InitOk(upload: Uuid, chunkSize: u64, resumeOffset: nat)
    | ChunkOk(nextOffset: nat)
    | FinalizeOk(session: Uuid)
    | Refused(status: nat)

  const BAD_REQUEST := 400
  const NOT_FOUND := 404
  const REQUEST_TIMEOUT := 408
  const CONFLICT := 409
  const TOO_MANY_REQUESTS := 429
  const INTERNAL := 500

  const SERVER_CHUNK_SIZE: u64 := 8 * 1024 * 1024
  const MAX_CHUNK_SIZE := 32 * 1024 * 1024

  datatype Upload = Upload(device: DeviceId, meta: Meta, offset: nat, finalized: bool)

  datatype Session = Session(id: Uuid, blob: Bytes)

  /**
   `uploads` is the uploads table in creation order, so that `UploadUuid(n)` names row n.
   `staging` holds the staging files that exist. `sessions` has a uniqueness constraint on
   (device, bundle), which is why the pair is its key.
   */
  datatype Server = Server(
    uploads: seq<Upload>,
    staging: map<nat, Bytes>,
    sessions: map<(DeviceId, BundleId), Session>,
    minted: nat)

  /** What a handler still has to do once its first stage has succeeded. */
  datatype Task =
    | CreateUpload(device: DeviceId, meta: Meta)
    | WriteChunk(row: nat, offset: nat, data: Bytes)
    | ShipBlob(row: nat)
    | MarkFinalized(row: nat, session: Uuid, blob: Bytes)
    | InsertSession(row: nat, session: Uuid, blob: Bytes)

  datatype StageResult = Answer(reply: Reply) | Continue(task: Task)

  const EMPTY_SERVER := Server([], map[], map[], 0)

  /** The most recently created unfinalized upload of a bundle among the first n rows. */
  function FindResumable(uploads: seq<Upload>, device: DeviceId, bundle: BundleId, n: nat): (r: Option<nat>)
    requires n <= |uploads|
    ensures r.Some? ==> r.value < n && Resumable(uploads[r.value], device, bundle)
                        && forall k :: r.value < k < n ==> !Resumable(uploads[k], device, bundle)
    ensures r.None? ==> forall k :: 0 <= k < n ==> !Resumable(uploads[k], device, bundle)
  {
    if n == 0 then None
    else if Resumable(uploads[n - 1], device, bundle) then Some(n - 1)
    else FindResumable(uploads, device, bundle, n - 1)
  }

  predicate Resumable(u: Upload, device: DeviceId, bundle: BundleId) {
    u.device == device && u.meta.bundle == bundle && !u.finalized
  }

  /** Looks an upload up for a device; an id owned by another device is not found. */
  function GetUpload(s: Server, device: DeviceId, id: Uuid): (r: Option<nat>)
    ensures forall row: nat :: r == Some(row) <==>
              row < |s.uploads| && id == UploadUuid(row) && s.uploads[row].device == device
  {
    if id.UploadUuid? && id.index < |s.uploads| && s.uploads[id.index].device == device
    then Some(id.index)
    else None
  }

  function SaturatingAdd(a: nat, b: nat): nat {
    if a + b <= U64_MAX then a + b else U64_MAX
  }

  function BeginInit(s: Server, device: DeviceId, meta: Meta): StageResult {
    if meta.sha == Malformed || meta.kind == Unknown || meta.size == 0 then Answer(Refused(BAD_REQUEST))
    else if (device, meta.bundle) in s.sessions then
      var existing := s.sessions[(device, meta.bundle)];
      // The session id is handed back in place of an upload id.
      Answer(InitOk(existing.id, SERVER_CHUNK_SIZE, |existing.blob|))
    else match FindResumable(s.uploads, device, meta.bundle, |s.uploads|)
      case Some(row) =>
        if s.uploads[row].meta != meta then Answer(Refused(CONFLICT))
        else Answer(InitOk(UploadUuid(row), SERVER_CHUNK_SIZE, s.uploads[row].offset))
      case None => Continue(CreateUpload(device, meta))
  }

  /** Validates a chunk and reserves its byte range by a compare-and-set of the stored offset. */
  function BeginChunk(s: Server, device: DeviceId, id: Uuid, offset: u64, data: Bytes): (Server, StageResult) {
    match GetUpload(s, device, id)
    case None => (s, Answer(Refused(NOT_FOUND)))
    case Some(row) =>
      var upload := s.uploads[row];
      if upload.finalized then (s, Answer(Refused(CONFLICT)))
      else if |data| == 0 || |data| > MAX_CHUNK_SIZE then (s, Answer(Refused(BAD_REQUEST)))
      else
        var next := SaturatingAdd(offset, |data|);
        if next > upload.meta.size then (s, Answer(Refused(BAD_REQUEST)))
        else if upload.offset != offset then (s, Answer(Refused(CONFLICT)))
        else (s.(uploads := s.uploads[row := upload.(offset := next)]), Continue(WriteChunk(row, offset, data)))
  }

  /** Checks that the upload is complete and that its staged bytes hash to both claimed digests. */
  function BeginFinalize(s: Server, device: DeviceId, id: Uuid, sha: Digest): (Server, StageResult) {
    if sha == Malformed then (s, Answer(Refused(BAD_REQUEST)))
    else match GetUpload(s, device, id)
      case None => (s, Answer(Refused(NOT_FOUND)))
      case Some(row) =>
        var upload := s.uploads[row];
        if upload.finalized then
          if (device, upload.meta.bundle) in s.sessions
          then (s, Answer(FinalizeOk(s.sessions[(device, upload.meta.bundle)].id)))
          else (s, Answer(Refused(CONFLICT)))
        else if upload.offset != upload.meta.size then (s, Answer(Refused(BAD_REQUEST)))
        else if row !in s.staging then (s, Answer(Refused(INTERNAL)))
        else if Sha256(s.staging[row]) != upload.meta.sha || Sha256(s.staging[row]) != sha then
          (s.(staging := s.staging - {row}), Answer(Refused(BAD_REQUEST)))
        else (s, Continue(ShipBlob(row)))
  }

  function Begin(s: Server, device: DeviceId, req: Request): (Server, StageResult) {
    match req
    case InitRequest(meta) => (s, BeginInit(s, device, meta))
    case ChunkRequest(upload, offset, data) => BeginChunk(s, device, upload, offset, data)
    case FinalizeRequest(upload, sha) => BeginFinalize(s, device, upload, sha)
  }

  /** A write at an offset of a file; a gap beyond the old end reads as zeros. */
  function WriteAt(file: Bytes, offset: nat, data: Bytes): (r: Bytes)
    ensures |r| == if offset + |data| > |file| then offset + |data| else |file|
    ensures forall p :: 0 <= p < |r| ==>
      r[p] == if offset <= p < offset + |data| then data[p - offset] else if p < |file| then file[p] else 0
  {
    var length := if offset + |data| > |file| then offset + |data| else |file|;
    seq(length, p requires 0 <= p < length =>
      if offset <= p < offset + |data| then data[p - offset] else if p < |file| then file[p] else 0)
  }

  /** Writes to ranges that do not overlap may come in either order. */
  lemma DisjointWritesCommute(file: Bytes, o1: nat, d1: Bytes, o2: nat, d2: Bytes)
    requires o1 + |d1| <= o2 || o2 + |d2| <= o1
    ensures WriteAt(WriteAt(file, o1, d1), o2, d2) == WriteAt(WriteAt(file, o2, d2), o1, d1)
  {
  }

  /** What was written is read back, and so is everything around it that was there before. */
  lemma WrittenIsRead(file: Bytes, offset: nat, data: Bytes)
    requires offset <= |file|
    ensures var r := WriteAt(file, offset, data);
            r[offset..offset + |data|] == data && r[..offset] == file[..offset]
            && (offset + |data| <= |file| ==> r[offset + |data|..] == file[offset + |data|..])
  {
  }

  /** The bytes of a chunk that a write cut short has still written. */
  function Written(data: Bytes, wrote: nat): (r: Bytes)
    ensures r <= data
  {
    if wrote < |data| then data[..wrote] else data
  }

  /** A handler that dies may have written the first bytes of its chunk. */
  function TearWrite(s: Server, t: Task, wrote: nat): Server {
    if t.WriteChunk? && t.row in s.staging && wrote > 0 then
      s.(staging := s.staging[t.row := WriteAt(s.staging[t.row], t.offset, Written(t.data, wrote))])
    else s
  }

  /** Whether a task talks about an existing row; every task a handler creates does. */
  predicate TaskFits(s: Server, t: Task) {
    t.CreateUpload? || t.row < |s.uploads|
  }

  /**
   The next stage of a handler. `keepStaging` says that the best-effort removal of the staging
   file failed.
   */
  function Resume(s: Server, t: Task, keepStaging: bool): (Server, StageResult)
    requires TaskFits(s, t)
  {
    match t
    case CreateUpload(device, meta) =>
      var row := |s.uploads|;
      (s.(uploads := s.uploads + [Upload(device, meta, 0, false)], staging := s.staging[row := []]),
       Answer(InitOk(UploadUuid(row), SERVER_CHUNK_SIZE, 0)))
    case WriteChunk(row, offset, data) =>
      if row !in s.staging then (s, Answer(Refused(INTERNAL)))
      else (s.(staging := s.staging[row := WriteAt(s.staging[row], offset, data)]),
            Answer(ChunkOk(SaturatingAdd(offset, |data|))))
    case ShipBlob(row) =>
      if row !in s.staging then (s, Answer(Refused(INTERNAL)))
      else
        var staging := if keepStaging then s.staging else s.staging - {row};
        (s.(staging := staging, minted := s.minted + 1),
         Continue(MarkFinalized(row, SessionUuid(s.minted), s.staging[row])))
    case MarkFinalized(row, session, blob) =>
      (s.(uploads := s.uploads[row := s.uploads[row].(finalized := true)]),
       Continue(InsertSession(row, session, blob)))
    case InsertSession(row, session, blob) =>
      var key := (s.uploads[row].device, s.uploads[row].meta.bundle);
      if key in s.sessions then (s, Answer(FinalizeOk(s.sessions[key].id)))
      else (s.(sessions := s.sessions[key := Session(session, blob)]), Answer(FinalizeOk(session)))
  }

  function StagesLeft(o: StageResult): nat {
    match o
    case Answer(_) => 0
    case Continue(t) => match t
      case CreateUpload(_, _) => 1
      case WriteChunk(_, _, _) => 1
      case ShipBlob(_) => 3
      case MarkFinalized(_, _, _) => 2
      case InsertSession(_, _, _) => 1
  }

  /** The remaining stages of a handler that nothing interrupts. */
  function Finish(s: Server, o: StageResult): (Server, Reply)
    requires o.Continue? ==> TaskFits(s, o.task)
    decreases StagesLeft(o)
  {
    match o
    case Answer(reply) => (s, reply)
    case Continue(t) => var (s', o') := Resume(s, t, false); Finish(s', o')
  }

  /** A whole handler that nothing interrupts. */
  function Handle(s: Server, device: DeviceId, req: Request): (Server, Reply) {
    var (s', o) := Begin(s, device, req);
    Finish(s', o)
  }

  // ---------------------------------------------------------------------------------------------
  // What each request is answered, and what it changes
  // ---------------------------------------------------------------------------------------------

  /** The row is the most recent upload of the device's bundle that is not finalized. */
  ghost predicate IsLatest(s: Server, device: DeviceId, bundle: BundleId, row: nat) {
    && row < |s.uploads| && Resumable(s.uploads[row], device, bundle)
    && forall k :: row < k < |s.uploads| ==> !Resumable(s.uploads[k], device, bundle)
  }

  /**
   Init refuses a request that is malformed, and one whose bundle has an interrupted upload under other metadata.
   Otherwise it names the session or an upload of exactly this metadata, at its offset, and opens one only where
   there is none. Asked again it says the same and opens nothing more.
   */
  lemma InitVerdict(s: Server, device: DeviceId, meta: Meta)
    ensures var (s', reply) := Handle(s, device, InitRequest(meta));
            var wellFormed := meta.sha.Sha256? && meta.kind in {EvidenceZip, NdjsonEntries, RawFile} && meta.size >= 1;
            var key := (device, meta.bundle);
            && (!wellFormed <==> reply == Refused(400))
            && (reply == Refused(409) <==>
                  wellFormed && key !in s.sessions
                  && exists row: nat :: IsLatest(s, device, meta.bundle, row) && s.uploads[row].meta != meta)
            && (reply.Refused? ==> s' == s && reply.status in {400, 409})
            && (reply.InitOk? ==>
                  && reply.chunkSize == 8_388_608 && Handle(s', device, InitRequest(meta)) == (s', reply)
                  && if key in s.sessions
                     then s' == s && reply.upload == s.sessions[key].id && reply.resumeOffset == |s.sessions[key].blob|
                     else OpensUpload(s, s', device, meta, reply.upload, reply.resumeOffset))
  {
    var latest := FindResumable(s.uploads, device, meta.bundle, |s.uploads|);
    if latest.Some? {
      assert IsLatest(s, device, meta.bundle, latest.value);
    } else if BeginInit(s, device, meta).Continue? {
      NewUploadEnds(s, device, meta);
      var s' := Handle(s, device, InitRequest(meta)).0;
      assert IsLatest(s', device, meta.bundle, |s.uploads|);
    }
  }

  lemma NewUploadEnds(s: Server, device: DeviceId, meta: Meta)
    ensures Finish(s, Continue(CreateUpload(device, meta)))
         == (s.(uploads := s.uploads + [Upload(device, meta, 0, false)], staging := s.staging[|s.uploads| := []]),
             InitOk(UploadUuid(|s.uploads|), SERVER_CHUNK_SIZE, 0))
  {
    var (s1, o1) := Resume(s, CreateUpload(device, meta), false);
    assert Finish(s, Continue(CreateUpload(device, meta))) == Finish(s1, o1);
  }

  /** The id names the latest upload of this metadata at this offset; a new one is empty and changes no other row. */
  ghost predicate OpensUpload(s: Server, s': Server, device: DeviceId, meta: Meta, id: Uuid, offset: nat) {
    && id.UploadUuid? && IsLatest(s', device, meta.bundle, id.index)
    && s'.uploads[id.index] == Upload(device, meta, offset, false)
    && (s' == s || (id.index == |s.uploads| && offset == 0
                    && s' == s.(uploads := s.uploads + [s'.uploads[id.index]], staging := s.staging[id.index := []])
                    && forall row: nat :: !IsLatest(s, device, meta.bundle, row)))
  }

  /** The row of its own that a device names by an upload id. */
  predicate OwnsUpload(s: Server, device: DeviceId, id: Uuid, row: nat) {
    id == UploadUuid(row) && row < |s.uploads| && s.uploads[row].device == device
  }

  /**
   A chunk is taken if and only if it comes at the stored offset of the device's own unfinalized upload, is neither
   empty nor above 32 MiB, and ends within the declared size. Then the offset moves on by its length, and its bytes
   are staged there, unless the staging file is gone. Sent again it is refused. What is refused changes nothing.
   Offsets saturate at the top of their range: there an upload of the largest size takes any chunk.
   */
  lemma ChunkVerdict(s: Server, device: DeviceId, row: nat, offset: u64, data: Bytes)
    requires row < |s.uploads| && s.uploads[row].device == device
    ensures var (req, u) := (ChunkRequest(UploadUuid(row), offset, data), s.uploads[row]);
            var (s', reply) := Handle(s, device, req);
            var next := if offset + |data| < 0x1_0000_0000_0000_0000 then offset + |data| else 0xFFFF_FFFF_FFFF_FFFF;
            var fits := 1 <= |data| <= 33_554_432 && next <= u.meta.size;
            var taken := !u.finalized && fits && offset == u.offset;
            && (reply == Refused(409) <==> u.finalized || (fits && offset != u.offset))
            && (reply == Refused(400) <==> !u.finalized && !fits)
            && (taken ==> reply == if row in s.staging then ChunkOk(next) else Refused(500))
            && s'.uploads == (if taken then s.uploads[row := u.(offset := next)] else s.uploads)
            && s'.staging == (if taken && row in s.staging
                              then s.staging[row := WriteAt(s.staging[row], offset, data)] else s.staging)
            && (s'.sessions, s'.minted) == (s.sessions, s.minted)
            && (taken && offset < next ==> Handle(s', device, req) == (s', Refused(409)))
  {
    var (s1, o) := Begin(s, device, ChunkRequest(UploadUuid(row), offset, data));
    if o.Continue? {
      WriteEnds(s1, row, offset, data);
    }
  }

  lemma WriteEnds(s: Server, row: nat, offset: nat, data: Bytes)
    requires row < |s.uploads|
    ensures Finish(s, Continue(WriteChunk(row, offset, data)))
         == if row in s.staging
            then (s.(staging := s.staging[row := WriteAt(s.staging[row], offset, data)]),
                  ChunkOk(SaturatingAdd(offset, |data|)))
            else (s, Refused(500))
  {
    var (s1, o1) := Resume(s, WriteChunk(row, offset, data), false);
    assert Finish(s, Continue(WriteChunk(row, offset, data))) == Finish(s1, o1);
  }

  /** An id that is not one of the device's own uploads, and only such an id, is not found, and nothing changes. */
  lemma StrangersAreNotFound(s: Server, device: DeviceId, id: Uuid, offset: u64, data: Bytes, sha: Digest)
    requires sha.Sha256?
    ensures var found := exists row: nat :: OwnsUpload(s, device, id, row);
            var (s1, reply1) := Handle(s, device, ChunkRequest(id, offset, data));
            var (s2, reply2) := Handle(s, device, FinalizeRequest(id, sha));
            if found then reply1 != Refused(404) && reply2 != Refused(404)
            else (s1, reply1) == (s, Refused(404)) == (s2, reply2)
  {
    var found := GetUpload(s, device, id);
    if found.Some? {
      assert OwnsUpload(s, device, id, found.value);
      var (s1, o1) := Begin(s, device, ChunkRequest(id, offset, data));
      if o1.Continue? {
        WriteEnds(s1, found.value, offset, data);
      }
      if Begin(s, device, FinalizeRequest(id, sha)).1.Continue? {
        ShipmentCommits(s, found.value);
      }
    } else {
      forall row: nat ensures !OwnsUpload(s, device, id, row) {
        assert found != Some(row);
      }
    }
  }

  /** The stages after the check, not interrupted: the staged bytes move into a new session and the row is closed. */
  lemma ShipmentCommits(s: Server, row: nat)
    requires row < |s.uploads| && row in s.staging
    ensures var u := s.uploads[row];
            var key := (u.device, u.meta.bundle);
            var id := SessionUuid(s.minted);
            Finish(s, Continue(ShipBlob(row)))
            == (Server(s.uploads[row := u.(finalized := true)], s.staging - {row},
                       if key in s.sessions then s.sessions else s.sessions[key := Session(id, s.staging[row])],
                       s.minted + 1),
                FinalizeOk(if key in s.sessions then s.sessions[key].id else id))
  {
    var (s1, o1) := Resume(s, ShipBlob(row), false);
    var (s2, o2) := Resume(s1, o1.task, false);
    var (s3, o3) := Resume(s2, o2.task, false);
    assert Finish(s, Continue(ShipBlob(row))) == Finish(s1, o1) == Finish(s2, o2) == Finish(s3, o3);
  }

  /**
   Finalize commits a complete upload if and only if its staged bytes hash to the digest that init was told and to
   the one that is claimed now. If they do not it is refused, and the staged bytes go.
   */
  lemma FinalizeVerdict(s: Server, device: DeviceId, row: nat, sha: Digest)
    requires row < |s.uploads| && s.uploads[row].device == device && row in s.staging
    requires !s.uploads[row].finalized && s.uploads[row].offset == s.uploads[row].meta.size
    requires (device, s.uploads[row].meta.bundle) !in s.sessions
    ensures var (u, staged) := (s.uploads[row], s.staging[row]);
            var key := (device, u.meta.bundle);
            var (s', reply) := Handle(s, device, FinalizeRequest(UploadUuid(row), sha));
            && (key in s'.sessions <==> Sha256(staged) == u.meta.sha == sha)
            && (key in s'.sessions ==>
                  && reply == FinalizeOk(s'.sessions[key].id) && s'.sessions[key].blob == staged
                  && s'.sessions == s.sessions[key := s'.sessions[key]]
                  && s'.uploads == s.uploads[row := u.(finalized := true)] && s'.staging == s.staging - {row})
            && (key !in s'.sessions ==>
                  && reply == Refused(400)
                  && s' == s.(staging := if sha.Malformed? then s.staging else s.staging - {row}))
  {
    var (s1, o) := Begin(s, device, FinalizeRequest(UploadUuid(row), sha));
    if o.Continue? {
      ShipmentCommits(s, row);
    }
  }

  /**
   Finalize in all other cases: an upload that is not complete is refused as it is, one whose staging file is gone
   cannot be finished, and for one that is finalized the session is named again, if it has one.
   */
  lemma FinalizeElsewise(s: Server, device: DeviceId, row: nat, sha: Digest)
    requires row < |s.uploads| && s.uploads[row].device == device && sha.Sha256?
    ensures var u := s.uploads[row];
            var key := (device, u.meta.bundle);
            var (s', reply) := Handle(s, device, FinalizeRequest(UploadUuid(row), sha));
            && (!u.finalized && u.offset != u.meta.size ==> s' == s && reply == Refused(400))
            && (!u.finalized && u.offset == u.meta.size && row !in s.staging ==> s' == s && reply == Refused(500))
            && (u.finalized ==>
                  s' == s && reply == if key in s.sessions then FinalizeOk(s.sessions[key].id) else Refused(409))
  {
  }
}
