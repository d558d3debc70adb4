/**
 The chunked, resumable uploader: init, chunk loop and finalize, each request wrapped in retries.

 What the network does is an input: for every exchange it says whether the request arrives, what
 becomes of the reply, whether the process dies, and what other requests and handlers run beside
 the request and in the gaps between the stages of its handler. As long as these are foreign to the
 bundle, the outcome is the one that the fates of the exchanges decide.
 */
module Uploader {
  import opened Encoding
  import opened Wrappers
  import opened Ingest
  import opened Network
  import opened Fates
  import opened View

  /** Delays are in seconds. */
  datatype RetryPolicy = RetryPolicy(maxAttempts: nat, delays: seq<nat>)

  const DEFAULT_POLICY := RetryPolicy(5, [2, 10, 30, 60, 120])

  function DelayFor(p: RetryPolicy, attempt: nat): nat {
    if attempt == 0 || p.delays == [] then 0
    else if attempt - 1 < |p.delays| - 1 then p.delays[attempt - 1]
    else p.delays[|p.delays| - 1]
  }

  /** The sleeps after attempts 1 to n. */
  function TotalDelay(p: RetryPolicy, n: nat): nat {
    if n == 0 then 0 else TotalDelay(p, n - 1) + DelayFor(p, n)
  }

  /** A list with one delay per attempt sleeps all but the last: the default policy never waits its 120 seconds. */
  lemma {:induction false} LastDelayIsNeverSlept(p: RetryPolicy, last: nat, n: nat)
    requires |p.delays| == p.maxAttempts > 0 && n <= p.maxAttempts - 1
    ensures TotalDelay(p, n) == TotalDelay(p.(delays := p.delays[p.maxAttempts - 1 := last]), n)
    ensures TotalDelay(DEFAULT_POLICY, DEFAULT_POLICY.maxAttempts - 1) == 2 + 10 + 30 + 60
  {
    if n > 0 {
      LastDelayIsNeverSlept(p, last, n - 1);
    }
    var q := DEFAULT_POLICY;
    assert TotalDelay(q, 1) == 2 && TotalDelay(q, 2) == 12 && TotalDelay(q, 3) == 42 && TotalDelay(q, 4) == 102;
  }

  function Sum(delays: seq<nat>): nat {
    if delays == [] then 0 else Sum(delays[..|delays| - 1]) + delays[|delays| - 1]
  }

  lemma OnceMore(n: nat, last: nat)
    ensures (n + 1) * last == n * last + last && 0 * last == 0
  {
  }

  /** The sleeps are the listed delays in their order, and the last one again and again once the list is used up. */
  lemma {:induction false} LastDelayIsRepeated(p: RetryPolicy, n: nat)
    ensures p.delays == [] ==> TotalDelay(p, n) == 0
    ensures n <= |p.delays| ==> TotalDelay(p, n) == Sum(p.delays[..n])
    ensures n > |p.delays| > 0 ==>
              TotalDelay(p, n) == Sum(p.delays) + (n - |p.delays|) * p.delays[|p.delays| - 1]
  {
    if n > 0 {
      LastDelayIsRepeated(p, n - 1);
      if n <= |p.delays| {
        assert p.delays[..n][..n - 1] == p.delays[..n - 1];
      } else if p.delays != [] {
        assert p.delays[..|p.delays|] == p.delays;
        OnceMore(n - 1 - |p.delays|, p.delays[|p.delays| - 1]);
      }
    }
  }

  /** What reaches the client of one exchange. */
  datatype Arrival = Got(reply: Reply) | Unreachable | Undecodable | Crashed

  function Classify(a: Arrival): Outcome<Reply> {
    match a
    case Got(Refused(status)) => Err(StatusError(status))
    case Got(reply) => Ok(reply)
    case Unreachable => Err(NetworkError)
    case Undecodable => Err(Decode)
    case Crashed => Halted
  }

  /** What the client sees of an exchange whose handler, if it comes to that, answers as given. */
  function Seen(fate: Fate, reply: Reply): Arrival {
    match fate.course
    case RequestLost => Unreachable
    case DiesSending => Crashed
    case Intercepted(status) => Got(Refused(status))
    case Handled(_, _, Arrives) => Got(reply)
    case Handled(_, _, ReplyLost) => Unreachable
    case Handled(_, _, Garbled) => if reply.Refused? then Got(reply) else Undecodable
    case Handled(_, _, DiesHearing) => Crashed
  }

  /** A status that says the server failed, timed out or is overloaded, in HTTP's own numbers. */
  predicate SaysTryAgain(status: nat) {
    500 <= status <= 599 || status in {408, 429}
  }

  /** What the client answers by asking again, if it has tries left. */
  predicate AskedAgain(course: Course) {
    match course
    case RequestLost => true
    case DiesSending => false
    case Intercepted(status) => SaysTryAgain(status)
    case Handled(_, _, _) => true
  }

  /** How a request ends after such an exchange; `last` says that there are no tries left. */
  predicate EndedBy(course: Course, r: Outcome<Reply>, last: bool) {
    match course
    case RequestLost => r == Err(NetworkError) && last
    case DiesSending => r == Halted
    case Intercepted(status) =>
      if SaysTryAgain(status) then r == Err(Transient(status)) && last else r == Err(Fatal(status))
    case Handled(_, _, hearing) =>
      && (r.Ok? ==> hearing.Arrives?) && (r.Halted? ==> hearing.DiesHearing?)
      && (hearing.ReplyLost? ==> r == Err(NetworkError) && last)
      && (r.Err? ==> match r.error
                     case NetworkError => last
                     case Transient(status) => last && SaysTryAgain(status)
                     case Fatal(status) => !SaysTryAgain(status)
                     case _ => hearing.Garbled?)
  }

  /** A transient failure is asked about again, any other outcome is final. */
  lemma WhatIsAskedAgain(fate: Fate, a: Arrival)
    requires !fate.course.Handled? ==> forall reply :: a == Seen(fate, reply)
    requires fate.course.Handled? ==> a == Unreachable || exists reply :: a == Seen(fate, reply)
    ensures var r := Classify(a);
            if r.Err? && IsTransient(r.error) then AskedAgain(fate.course) && EndedBy(fate.course, r, true)
            else forall last :: EndedBy(fate.course, r, last)
  {
    if !fate.course.Handled? {
      assert a == Seen(fate, Refused(0));
    }
  }

  lemma SeenIsTold(fate: Fate, reply: Reply)
    ensures Plain(Classify(Seen(fate, reply))) == EndOf(fate, if reply.Refused? then Some(reply.status) else None)
  {
  }

  /** What runs beside the exchange is about other devices and other bundles. */
  predicate CalmFate(s: Server, fate: Fate, b: BundleId) {
    && AllForeign(s, fate.beside, b)
    && (fate.course.Handled? ==> GapsForeign(s, fate.course.gaps, |fate.course.gaps|, b))
  }

  predicate GapsForeign(s: Server, gaps: seq<seq<NetEvent>>, n: nat, b: BundleId) {
    forall i :: 0 <= i < n && i < |gaps| ==> AllForeign(s, gaps[i], b)
  }

  predicate Calm(s: Server, world: World, at: nat, next: nat, b: BundleId) {
    forall k :: at <= k < next ==> CalmFate(s, world(k), b)
  }

  lemma AllForeignEarlier(s: Server, s': Server, es: seq<NetEvent>, b: BundleId)
    requires Grows(s, s') && AllForeign(s', es, b)
    ensures AllForeign(s, es, b)
  {
    forall i | 0 <= i < |es| ensures Foreign(s, es[i], b) {
      ForeignEarlier(s, s', es[i], b);
    }
  }

  lemma GapsForeignEarlier(s: Server, s': Server, gaps: seq<seq<NetEvent>>, n: nat, b: BundleId)
    requires Grows(s, s') && GapsForeign(s', gaps, n, b)
    ensures GapsForeign(s, gaps, n, b)
  {
    forall i | 0 <= i < n && i < |gaps| ensures AllForeign(s, gaps[i], b) {
      AllForeignEarlier(s, s', gaps[i], b);
    }
  }

  lemma CalmEarlier(s: Server, s': Server, world: World, at: nat, next: nat, b: BundleId)
    requires Grows(s, s') && Calm(s', world, at, next, b)
    ensures Calm(s, world, at, next, b)
  {
    forall k | at <= k < next ensures CalmFate(s, world(k), b) {
      assert CalmFate(s', world(k), b);
      AllForeignEarlier(s, s', world(k).beside, b);
      if world(k).course.Handled? {
        GapsForeignEarlier(s, s', world(k).course.gaps, |world(k).course.gaps|, b);
      }
    }
  }

  lemma OneMoreFate(s: Server, world: World, at: nat, next: nat, b: BundleId)
    requires at <= next
    ensures Calm(s, world, at, next + 1, b) ==> Calm(s, world, at, next, b) && CalmFate(s, world(next), b)
  {
  }

  lemma CalmParts(s: Server, world: World, at: nat, mid: nat, next: nat, b: BundleId)
    requires at <= mid <= next
    ensures Calm(s, world, at, next, b) <==> Calm(s, world, at, mid, b) && Calm(s, world, mid, next, b)
  {
  }

  // ---------------------------------------------------------------------------------------------
  // What the client is told
  // ---------------------------------------------------------------------------------------------

  predicate Success(reply: Reply) { !reply.Refused? }

  lemma MaySendStays(bundle: Bundle, net: Net, net': Net, req: Request)
    requires MaySend(bundle, net, req) && net.replies <= net'.replies
    ensures MaySend(bundle, net', req)
  {
    if !req.InitRequest? {
      var chunkSize, resume :| (InitRequest(bundle.meta), InitOk(req.upload, chunkSize, resume)) in net.replies;
      assert (InitRequest(bundle.meta), InitOk(req.upload, chunkSize, resume)) in net'.replies;
    }
  }

  lemma GrantStays(reg: Registry, net: Net, net': Net, meta: Meta, id: Uuid)
    requires Granted(net, meta, id) && Leads(reg, net, net')
    ensures Granted(net', meta, id)
  {
    var chunkSize, resume :| (InitRequest(meta), InitOk(id, chunkSize, resume)) in net.replies;
    assert (InitRequest(meta), InitOk(id, chunkSize, resume)) in net'.replies;
  }

  /** The reply was given at once by a server that had moved on from s0, or after further stages. */
  ghost predicate ReplyFrom(s0: Server, req: Request, reply: Reply) {
    exists s :: Grows(s0, s) && MayAnswer(s, req, reply)
  }

  predicate MayAnswer(s: Server, req: Request, reply: Reply) {
    var o := Begin(s, AGENT, req).1; o == Answer(reply) || o.Continue?
  }

  lemma ReplyFromEarlier(s0: Server, s1: Server, req: Request, reply: Reply)
    requires Grows(s0, s1) && ReplyFrom(s1, req, reply)
    ensures ReplyFrom(s0, req, reply)
  {
    var s :| Grows(s1, s) && MayAnswer(s, req, reply);
    assert Grows(s0, s);
  }

  /** The bundle has a session, and its id is one that sessions have. */
  predicate HasSession(s: Server, meta: Meta) {
    Committed(s, meta.bundle) && s.sessions[(AGENT, meta.bundle)].id.SessionUuid?
  }

  /** For a bundle with a session, init hands out the session's id, under which finalize finds nothing. */
  lemma CommittedGetsSessionId(s0: Server, meta: Meta, reply: Reply)
    requires HasSession(s0, meta) && ReplyFrom(s0, InitRequest(meta), reply) && reply.InitOk?
    ensures reply.upload == s0.sessions[(AGENT, meta.bundle)].id
  {
    var s :| Grows(s0, s) && MayAnswer(s, InitRequest(meta), reply);
    assert Committed(s, meta.bundle) && s.sessions[(AGENT, meta.bundle)] == s0.sessions[(AGENT, meta.bundle)];
  }

  lemma CommittedGetsNoUpload(s0: Server, meta: Meta, reply: Reply)
    requires ReplyFrom(s0, InitRequest(meta), reply) && reply.InitOk?
    ensures HasSession(s0, meta) ==> !reply.upload.UploadUuid?
  {
    if HasSession(s0, meta) {
      CommittedGetsSessionId(s0, meta, reply);
    }
  }

  lemma SessionIdNeverFinalizes(s0: Server, id: Uuid, sha: Digest, reply: Reply)
    requires id.SessionUuid? && ReplyFrom(s0, FinalizeRequest(id, sha), reply)
    ensures reply.Refused?
  {
  }

  // ---------------------------------------------------------------------------------------------
  // The account of one operation
  // ---------------------------------------------------------------------------------------------

  /** Where exchanges leave a bundle that stood at v0: moved on if one of them was handled. */
  predicate MovedBy(req: Request, bytes: Bytes, v0: Standing, v: Standing, handled: bool) {
    if handled then Moves(req, bytes, v0, v) else v == v0
  }

  /** One exchange beside which only other devices and other bundles were at work. */
  predicate CalmExchange(req: Request, bytes: Bytes, v: Standing, v': Standing, fate: Fate, a: Arrival) {
    MovedBy(req, bytes, v, v', fate.course.Handled?) && a == Seen(fate, AnswerTo(req, bytes, v, v'))
  }

  /** So far every exchange made the client ask again. */
  predicate CalmSoFar(req: Request, bytes: Bytes, v0: Standing, v: Standing, attempts: nat, world: World, at: nat,
                      next: nat) {
    && at <= next <= at + attempts && MovedBy(req, bytes, v0, v, HandledIn(world, at, next))
    && Ends(world, at, attempts) == Ends(world, next, at + attempts - next)
  }

  /** The reply of the last handler: an earlier one may already have moved the bundle. */
  function LastAnswer(req: Request, bytes: Bytes, v0: Standing, v: Standing, world: World, at: nat, next: nat): Reply {
    AnswerTo(req, bytes, if HandledBefore(world, at, next) then v else v0, v)
  }

  /** The exact outcome of a retried request beside which only others were at work. */
  predicate CalmRetries(req: Request, bytes: Bytes, v0: Standing, v: Standing, attempts: nat, world: World, at: nat,
                        next: nat, r: Outcome<Reply>) {
    && next == Ends(world, at, attempts) && MovedBy(req, bytes, v0, v, HandledIn(world, at, next))
    && r == if next <= at then Err(Exhausted)
            else Classify(Seen(world(next - 1), LastAnswer(req, bytes, v0, v, world, at, next)))
  }

  lemma CalmStep(req: Request, meta: Meta, bytes: Bytes, v0: Standing, v: Standing, v': Standing, attempts: nat,
                 world: World, at: nat, next: nat, a: Arrival)
    requires Fits(req, meta, bytes, v0) && CalmSoFar(req, bytes, v0, v, attempts, world, at, next)
    requires next < at + attempts && CalmExchange(req, bytes, v, v', world(next), a)
    ensures if Classify(a).Err? && IsTransient(Classify(a).error)
            then CalmSoFar(req, bytes, v0, v', attempts, world, at, next + 1)
            else CalmRetries(req, bytes, v0, v', attempts, world, at, next + 1, Classify(a))
    ensures Retriable(world(next)) <==> Classify(a).Err? && IsTransient(Classify(a).error)
    ensures Classify(a) == Classify(Seen(world(next), LastAnswer(req, bytes, v0, v', world, at, next + 1)))
  {
    if HandledIn(world, at, next) {
      MovesOnce(req, meta, bytes, v0, v);
    }
  }

  // ---------------------------------------------------------------------------------------------
  // The account of one upload
  // ---------------------------------------------------------------------------------------------

  function ReachedBy(v: Standing): Reached {
    match v
    case Absent => Nowhere
    case Active(_, offset) => Staged(offset)
    case Settled(_, _) => Stored
  }

  /** The bundle and the client are where the fates say; success hands out the id of the session. */
  predicate Passes(p: Passage, v0: Standing, v: Standing, next: nat, r: Outcome<Uuid>) {
    && next == p.next && ReachedBy(v) == p.reached && Plain(r) == p.end
    && (r.Ok? ==> v.Settled? && r.value == v.session) && (v0.Settled? ==> v == v0)
  }

  /** Where a granted init leaves the attempt. */
  predicate Initialized(v: Standing, bytes: Bytes, grant: Grant) {
    && grant.chunkSize == SERVER_CHUNK_SIZE
    && if v.Settled? then grant.upload == v.session && v.session.SessionUuid? && grant.resume == |bytes|
       else grant.upload.UploadUuid? && v == Active(grant.upload.index, grant.resume)
  }

  /** What a granted init answers. */
  datatype Grant = Grant(upload: Uuid, chunkSize: u64, resume: nat)

  /** The init ends as the fates say, and a granted one leaves the attempt at the server's offset. */
  predicate InitEnds(v0: Standing, v: Standing, bytes: Bytes, attempts: nat, world: World, at: nat, next: nat,
                     r: Outcome<Grant>) {
    && next == Ends(world, at, attempts) && Plain(r) == Told(world, at, next, None)
    && ReachedBy(v) == Opened(world, at, next, ReachedBy(v0)) && (v0.Settled? ==> v == v0)
    && (r.Ok? ==> Initialized(v, bytes, r.value))
  }

  lemma CalmInit(meta: Meta, bytes: Bytes, v0: Standing, v: Standing, attempts: nat, world: World, at: nat, next: nat,
                 init: Outcome<Reply>, r: Outcome<Grant>)
    requires v0.Settled? ==> v0.session.SessionUuid?
    requires CalmRetries(InitRequest(meta), bytes, v0, v, attempts, world, at, next, init)
    requires match init
             case Ok(InitOk(id, chunkSize, resume)) => r == Ok(Grant(id, chunkSize, resume))
             case Ok(_) => r == Err(Decode)
             case Err(e) => r == Err(e)
             case Halted => r == Halted
    ensures InitEnds(v0, v, bytes, attempts, world, at, next, r)
  {
    if next > at {
      SeenIsTold(world(next - 1), LastAnswer(InitRequest(meta), bytes, v0, v, world, at, next));
    }
  }

  /** An undisturbed chunk ends as the fates say; no other answer comes. */
  lemma ChunkSettles(bytes: Bytes, row: nat, offset: nat, end: nat, v: Standing, attempts: nat, world: World, at: nat,
                     next: nat, reply: Outcome<Reply>)
    requires offset < end <= |bytes| <= U64_MAX
    requires var req := ChunkRequest(UploadUuid(row), offset, bytes[offset..end]);
             CalmRetries(req, bytes, Active(row, offset), v, attempts, world, at, next, reply)
    ensures reply.Ok? ==> reply.value == ChunkOk(end)
    ensures v == Active(row, if HandledIn(world, at, next) then end else offset)
    ensures Plain(reply) == Told(world, at, next, if HandledBefore(world, at, next) then Some(CONFLICT) else None)
  {
    var req := ChunkRequest(UploadUuid(row), offset, bytes[offset..end]);
    if next > at {
      SeenIsTold(world(next - 1), LastAnswer(req, bytes, Active(row, offset), v, world, at, next));
    }
  }

  /** A finalize ends the attempt as the fates say. */
  lemma CalmFinalize(meta: Meta, bytes: Bytes, v0: Standing, v: Standing, grant: Grant, attempts: nat, world: World,
                     at: nat, next: nat, fin: Outcome<Reply>, r: Outcome<Uuid>)
    requires Initialized(v0, bytes, grant.(resume := |bytes|))
    requires CalmRetries(FinalizeRequest(grant.upload, meta.sha), bytes, v0, v, attempts, world, at, next, fin)
    requires match fin
             case Ok(FinalizeOk(session)) => r == Ok(session)
             case Ok(_) => r == Err(Decode)
             case Err(e) => r == Err(e)
             case Halted => r == Halted
    ensures Passes(Rest(world, at, attempts, ReachedBy(v0), |bytes|), v0, v, next, r)
  {
    if next > at {
      SeenIsTold(world(next - 1),
                 LastAnswer(FinalizeRequest(grant.upload, meta.sha), bytes, v0, v, world, at, next));
    }
  }

  /** The chunk loop before it does not change that. */
  lemma ChunksThenFinalize(bytes: Bytes, v0: Standing, v1: Standing, v: Standing, grant: Grant, attempts: nat,
                           world: World, at: nat, mid: nat, next: nat, r: Outcome<Uuid>)
    requires Initialized(v0, bytes, grant)
    requires if v0.Settled? then v1 == v0 && mid == at
             else grant.upload.UploadUuid? && v1 == Active(grant.upload.index, |bytes|)
                  && Chunks(world, at, attempts, grant.resume, |bytes|) == Passage(mid, Staged(|bytes|), Ok(()))
    requires Passes(Rest(world, mid, attempts, ReachedBy(v1), |bytes|), v1, v, next, r)
    ensures Passes(Rest(world, at, attempts, ReachedBy(v0), |bytes|), v0, v, next, r)
  {
  }

  lemma ChunksFailed(bytes: Bytes, v0: Standing, v: Standing, attempts: nat, world: World, at: nat, next: nat,
                     sent: Outcome<()>, r: Outcome<Uuid>)
    requires v0.Active? && v.Active? && !sent.Ok? && Plain(r) == sent
    requires Chunks(world, at, attempts, v0.offset, |bytes|) == Passage(next, Staged(v.offset), sent)
    ensures Passes(Rest(world, at, attempts, ReachedBy(v0), |bytes|), v0, v, next, r)
  {
  }

  /** An attempt is its init and what follows it. */
  lemma InitThenRest(bytes: Bytes, v0: Standing, v1: Standing, v: Standing, attempts: nat, world: World, at: nat,
                     mid: nat, next: nat, readable: bool, grant: Outcome<Grant>, r: Outcome<Uuid>)
    requires InitEnds(v0, v1, bytes, attempts, world, at, mid, grant)
    requires if !grant.Ok? then Plain(r) == Plain(grant) && v == v1 && next == mid
             else if !readable then r == Err(ReadError) && v == v1 && next == mid
             else Passes(Rest(world, mid, attempts, ReachedBy(v1), |bytes|), v1, v, next, r)
    ensures Passes(Attempted(world, at, attempts, ReachedBy(v0), |bytes|, readable), v0, v, next, r)
  {
  }

  // ---------------------------------------------------------------------------------------------
  // One handler among others
  // ---------------------------------------------------------------------------------------------

  /** The bundle's view is as it was, and so are the handlers that work on it. */
  ghost predicate Untouched(net: Net, net': Net, b: BundleId) {
    && SameView(net.server, net'.server, b) && |net.server.uploads| <= |net'.server.uploads|
    && forall h :: h in net.handlers && WorksOn(net.server, h.task, b) ==> h in net'.handlers
  }

  lemma UntouchedSelf(net: Net, b: BundleId)
    ensures Untouched(net, net, b)
  {
  }

  lemma HandlersStay(reg: Registry, net: Net, e: NetEvent, b: BundleId)
    requires NetEnabled(reg, net, e) && Foreign(net.server, e, b)
    ensures forall h :: h in net.handlers && WorksOn(net.server, h.task, b) ==> h in NetNext(reg, net, e).handlers
  {
    hide Begin, Resume, TearWrite;
  }

  lemma NothingDone(net: Net)
    ensures forall b :: Untouched(net, net, b)
  {
  }

  lemma FewerForeign(s: Server, es: seq<NetEvent>, i: nat, b: BundleId)
    requires i < |es| && AllForeign(s, es[..i + 1], b)
    ensures AllForeign(s, es[..i], b) && Foreign(s, es[i], b)
  {
    assert forall j :: 0 <= j < i ==> es[..i][j] == es[..i + 1][j];
    assert es[..i + 1][i] == es[i];
  }

  lemma OneMoreForeign(reg: Registry, start: Net, before: Net, es: seq<NetEvent>, i: nat, b: BundleId)
    requires i < |es| && NetEnabled(reg, before, es[i]) && Grows(start.server, before.server)
    requires Grows(before.server, NetNext(reg, before, es[i]).server)
    requires AllForeign(NetNext(reg, before, es[i]).server, es[..i + 1], b)
    requires AllForeign(before.server, es[..i], b) ==> Untouched(start, before, b)
    ensures Untouched(start, NetNext(reg, before, es[i]), b)
  {
    hide NetEnabled, NetNext, Grows, Untouched, AllForeign, Foreign;
    AllForeignEarlier(before.server, NetNext(reg, before, es[i]).server, es[..i + 1], b);
    FewerForeign(before.server, es, i, b);
    OneMoreUntouched(reg, start, before, es[i], b);
  }

  lemma OneMoreUntouched(reg: Registry, start: Net, before: Net, e: NetEvent, b: BundleId)
    requires Untouched(start, before, b) && NetEnabled(reg, before, e) && Foreign(before.server, e, b)
    requires Grows(start.server, before.server)
    ensures Untouched(start, NetNext(reg, before, e), b)
  {
    var after := NetNext(reg, before, e);
    NextGrows(reg, before, e);
    ForeignKeepsView(reg, before, e, b);
    HandlersStay(reg, before, e, b);
    SameViewOn(start.server, before.server, after.server, b);
    hide NetNext, NetEnabled, Foreign, SameView;
    forall h | h in start.handlers && WorksOn(start.server, h.task, b)
      ensures WorksOn(before.server, h.task, b)
    {
    }
  }

  /** The bundle stands where the request fits. */
  predicate Placed(s: Server, bundle: Bundle, req: Request, v: Standing) {
    && Acceptable(bundle.meta, bundle.bytes) && Stands(s, bundle.meta, bundle.bytes, v)
    && Fits(req, bundle.meta, bundle.bytes, v)
  }

  /** The request's handler has come as far as the outcome says and is there to go on. */
  ghost predicate Serving(net: Net, bundle: Bundle, req: Request, v: Standing, o: StageResult) {
    && Underway(net.server, bundle.meta, bundle.bytes, req, v, o)
    && (o.Continue? ==> Handler(AGENT, req, o.task) in net.handlers)
  }

  lemma BeginServing(reg: Registry, net: Net, bundle: Bundle, req: Request, v: Standing)
    requires req in net.sent && Placed(net.server, bundle, req, v)
    ensures Serving(NetNext(reg, net, Receive(AGENT, req)), bundle, req, v, Begin(net.server, AGENT, req).1)
  {
    BeginServes(net.server, bundle.meta, bundle.bytes, req, v);
  }

  lemma GapServing(net: Net, net': Net, bundle: Bundle, req: Request, v: Standing, o: StageResult)
    requires Serving(net, bundle, req, v, o) && Untouched(net, net', bundle.meta.bundle)
    ensures Serving(net', bundle, req, v, o)
  {
    UnderwayBySameView(net.server, net'.server, bundle.meta, bundle.bytes, req, v, o);
    if o.Continue? {
      OwnTaskIsNotForeign(net.server, bundle.meta, bundle.bytes, req, v, o.task);
    }
  }

  lemma ResumeServing(reg: Registry, net: Net, bundle: Bundle, req: Request, v: Standing, t: Task, keep: bool)
    requires Serving(net, bundle, req, v, Continue(t)) && Fits(req, bundle.meta, bundle.bytes, v)
    ensures var e := Advance(Handler(AGENT, req, t), keep);
            NetEnabled(reg, net, e)
            && Serving(NetNext(reg, net, e), bundle, req, v, Resume(net.server, t, keep).1)
  {
    ResumeServes(net.server, bundle.meta, bundle.bytes, req, v, t, keep);
  }

  /** Another bundle's view is as it was, and the handler's next stage is not about that bundle. */
  ghost predicate Elsewhere(s0: Server, s: Server, o: StageResult, other: BundleId) {
    SameView(s0, s, other) && (o.Continue? ==> !WorksOn(s, o.task, other))
  }

  lemma BeginElsewhere(reg: Registry, net: Net, req: Request, other: BundleId)
    requires req in net.sent && Grows(net.server, Begin(net.server, AGENT, req).0)
    ensures var (s', o) := Begin(net.server, AGENT, req);
            !Concerns(s', req, other) ==> Elsewhere(net.server, s', o, other)
  {
    var (s', o) := Begin(net.server, AGENT, req);
    hide Begin, Grows;
    if !Concerns(s', req, other) {
      if Concerns(net.server, req, other) {
        ConcernsLater(net.server, s', req, other);
      }
      BeginKeepsView(net.server, AGENT, req, other);
      BeginWorksElsewhere(net.server, req, other);
    }
  }

  lemma GapElsewhere(s0: Server, net: Net, net': Net, req: Request, o: StageResult, other: BundleId)
    requires Grows(net.server, net'.server) && Untouched(net, net', other) && !Concerns(net'.server, req, other)
    requires !Concerns(net.server, req, other) ==> Elsewhere(s0, net.server, o, other)
    requires o.Continue? ==> TaskFits(net.server, o.task)
    ensures Elsewhere(s0, net'.server, o, other)
  {
    if Concerns(net.server, req, other) {
      ConcernsLater(net.server, net'.server, req, other);
    }
    SameViewOn(s0, net.server, net'.server, other);
  }

  lemma ResumeElsewhere(s0: Server, s: Server, s': Server, req: Request, t: Task, keep: bool, other: BundleId)
    requires TaskFits(s, t) && s' == Resume(s, t, keep).0 && Grows(s, s') && !Concerns(s', req, other)
    requires !Concerns(s, req, other) ==> Elsewhere(s0, s, Continue(t), other)
    ensures Elsewhere(s0, s', Resume(s, t, keep).1, other)
  {
    hide Resume, Grows;
    if Concerns(s, req, other) {
      ConcernsLater(s, s', req, other);
    }
    ResumeKeepsView(s, t, keep, other);
    ResumeWorksElsewhere(s, t, keep, other);
    SameViewOn(s0, s, s', other);
  }

  lemma TaskFitsLater(s: Server, s': Server, t: Task)
    requires Grows(s, s') && TaskFits(s, t)
    ensures TaskFits(s', t)
  {
  }

  lemma StagesRunOut(s: Server, t: Task, keep: bool)
    requires TaskFits(s, t)
    ensures var (s', o) := Resume(s, t, keep);
            StagesLeft(o) < StagesLeft(Continue(t)) && (o.Continue? ==> TaskFits(s', o.task))
  {
  }

  lemma BeginFits(s: Server, req: Request)
    ensures var (s', o) := Begin(s, AGENT, req); o.Continue? ==> TaskFits(s', o.task)
  {
  }

  lemma AfterGap(net: Net, net': Net, gaps: seq<seq<NetEvent>>, i: nat, b: BundleId)
    requires GapsForeign(net'.server, gaps, i + 1, b) && Grows(net.server, net'.server)
    requires if i < |gaps| then AllForeign(net'.server, gaps[i], b) ==> Untouched(net, net', b) else net' == net
    ensures Untouched(net, net', b) && GapsForeign(net.server, gaps, i, b)
  {
    if i >= |gaps| {
      UntouchedSelf(net, b);
    }
    GapsForeignEarlier(net.server, net'.server, gaps, i + 1, b);
  }

  lemma AllGaps(s: Server, gaps: seq<seq<NetEvent>>, n: nat, b: BundleId)
    ensures GapsForeign(s, gaps, |gaps|, b) ==> GapsForeign(s, gaps, n, b)
  {
  }

  /**
   How far a handler of the request has come, as long as everything in the gaps so far was foreign: to its
   own bundle, whose view it moves on, and to another bundle, whose view it leaves alone.
   */
  ghost predicate GoesWell(s0: Server, net: Net, bundle: Bundle, req: Request, v: Standing, o: StageResult,
                           gaps: seq<seq<NetEvent>>, i: nat, other: BundleId) {
    && (Placed(s0, bundle, req, v) && GapsForeign(net.server, gaps, i, bundle.meta.bundle) ==>
          Serving(net, bundle, req, v, o))
    && (GapsForeign(net.server, gaps, i, other) && !Concerns(net.server, req, other) ==>
          Elsewhere(s0, net.server, o, other))
  }

  lemma StartsWell(reg: Registry, net: Net, bundle: Bundle, req: Request, v: Standing, gaps: seq<seq<NetEvent>>,
                   other: BundleId)
    requires req in net.sent
    ensures var (s, o) := Begin(net.server, AGENT, req);
            GoesWell(net.server, Record(net.(server := s), AGENT, req, o), bundle, req, v, o, gaps, 0, other)
  {
    hide Begin, Placed, Serving, Elsewhere, Grows, Concerns;
    if Placed(net.server, bundle, req, v) {
      BeginServing(reg, net, bundle, req, v);
    }
    BeginGrows(net.server, AGENT, req);
    BeginElsewhere(reg, net, req, other);
  }

  lemma GapGoesWell(s0: Server, net: Net, net': Net, bundle: Bundle, req: Request, v: Standing, o: StageResult,
                    gaps: seq<seq<NetEvent>>, i: nat, other: BundleId)
    requires Grows(net.server, net'.server) && GoesWell(s0, net, bundle, req, v, o, gaps, i, other)
    requires o.Continue? ==> TaskFits(net.server, o.task)
    requires if i < |gaps| then forall b :: AllForeign(net'.server, gaps[i], b) ==> Untouched(net, net', b)
             else net' == net
    ensures GoesWell(s0, net', bundle, req, v, o, gaps, i + 1, other)
  {
    hide Placed, Serving, Elsewhere, Grows, Concerns, Untouched, AllForeign, GapsForeign;
    var b := bundle.meta.bundle;
    if Placed(s0, bundle, req, v) && GapsForeign(net'.server, gaps, i + 1, b) {
      AfterGap(net, net', gaps, i, b);
      GapServing(net, net', bundle, req, v, o);
    }
    if GapsForeign(net'.server, gaps, i + 1, other) && !Concerns(net'.server, req, other) {
      AfterGap(net, net', gaps, i, other);
      GapElsewhere(s0, net, net', req, o, other);
    }
  }

  lemma StageGoesWell(reg: Registry, s0: Server, net: Net, bundle: Bundle, req: Request, v: Standing, t: Task,
                      keep: bool, gaps: seq<seq<NetEvent>>, i: nat, other: BundleId)
    requires GoesWell(s0, net, bundle, req, v, Continue(t), gaps, i, other) && TaskFits(net.server, t)
    requires Handler(AGENT, req, t) in net.handlers
    ensures var (s', o) := Resume(net.server, t, keep);
            var net' := net.(server := s', handlers := net.handlers - multiset{Handler(AGENT, req, t)});
            GoesWell(s0, Record(net', AGENT, req, o), bundle, req, v, o, gaps, i, other)
  {
    hide Placed, Serving, Elsewhere, Grows, Concerns, GapsForeign, Resume;
    var (s', o) := Resume(net.server, t, keep);
    ResumeGrows(net.server, t, keep);
    if Placed(s0, bundle, req, v) && GapsForeign(s', gaps, i, bundle.meta.bundle) {
      GapsForeignEarlier(net.server, s', gaps, i, bundle.meta.bundle);
      PlacedFits(s0, bundle, req, v);
      ResumeServing(reg, net, bundle, req, v, t, keep);
    }
    if GapsForeign(s', gaps, i, other) && !Concerns(s', req, other) {
      GapsForeignEarlier(net.server, s', gaps, i, other);
      ResumeElsewhere(s0, net.server, s', req, t, keep, other);
    }
  }

  /** Only what is not foreign to the bundle can take a handler away. */
  lemma TakenAway(s0: Server, net: Net, bundle: Bundle, req: Request, v: Standing, o: StageResult,
                  gaps: seq<seq<NetEvent>>, i: nat, other: BundleId)
    requires GoesWell(s0, net, bundle, req, v, o, gaps, i, other) && o.Continue?
    requires Handler(AGENT, req, o.task) !in net.handlers
    ensures !(GapsForeign(net.server, gaps, |gaps|, bundle.meta.bundle) && Placed(s0, bundle, req, v))
    ensures GapsForeign(net.server, gaps, |gaps|, other) && !Concerns(net.server, req, other) ==>
              SameView(s0, net.server, other)
  {
    hide Placed, Concerns;
    AllGaps(net.server, gaps, i, bundle.meta.bundle);
    AllGaps(net.server, gaps, i, other);
  }

  lemma EndsWell(s0: Server, net: Net, bundle: Bundle, req: Request, v: Standing, reply: Reply,
                 gaps: seq<seq<NetEvent>>, i: nat, other: BundleId) returns (v': Standing)
    requires GoesWell(s0, net, bundle, req, v, Answer(reply), gaps, i, other)
    ensures GapsForeign(net.server, gaps, |gaps|, bundle.meta.bundle) && Placed(s0, bundle, req, v) ==>
              Stands(net.server, bundle.meta, bundle.bytes, v') && Moves(req, bundle.bytes, v, v')
              && reply == AnswerTo(req, bundle.bytes, v, v')
    ensures GapsForeign(net.server, gaps, |gaps|, other) && !Concerns(net.server, req, other) ==>
              SameView(s0, net.server, other)
  {
    hide Placed, Concerns, Serving, GapsForeign;
    AllGaps(net.server, gaps, i, bundle.meta.bundle);
    AllGaps(net.server, gaps, i, other);
    v' := v;
    if GapsForeign(net.server, gaps, |gaps|, bundle.meta.bundle) && Placed(s0, bundle, req, v) {
      v' := ServedAnswer(net, bundle, req, v, reply);
    }
  }

  lemma AnswersFrom(s: Server, req: Request, o: StageResult)
    requires o == Begin(s, AGENT, req).1
    ensures o.Answer? ==> MayAnswer(s, req, o.reply)
  {
  }

  lemma AnswersLater(s: Server, req: Request, reply: Reply)
    requires Begin(s, AGENT, req).1.Continue?
    ensures MayAnswer(s, req, reply)
  {
  }

  lemma ViewAfterGap(sent: Net, mid: Net, s: Server, other: BundleId)
    requires Untouched(sent, mid, other)
    ensures SameView(mid.server, s, other) ==> SameView(sent.server, s, other)
    ensures SameView(sent.server, mid.server, other)
  {
    if SameView(mid.server, s, other) {
      SameViewOn(sent.server, mid.server, s, other);
    }
  }

  lemma PlacedFits(s: Server, bundle: Bundle, req: Request, v: Standing)
    requires Placed(s, bundle, req, v)
    ensures Stands(s, bundle.meta, bundle.bytes, v)
    ensures Fits(req, bundle.meta, bundle.bytes, v) && Acceptable(bundle.meta, bundle.bytes)
  {
  }

  lemma GrowsSelf(s: Server)
    ensures Grows(s, s)
  {
  }

  lemma ServedAnswer(net: Net, bundle: Bundle, req: Request, v: Standing, reply: Reply) returns (v': Standing)
    requires Serving(net, bundle, req, v, Answer(reply))
    ensures Stands(net.server, bundle.meta, bundle.bytes, v') && Moves(req, bundle.bytes, v, v')
    ensures reply == AnswerTo(req, bundle.bytes, v, v')
  {
    v' :| Stands(net.server, bundle.meta, bundle.bytes, v') && Moves(req, bundle.bytes, v, v')
          && reply == AnswerTo(req, bundle.bytes, v, v');
  }

  lemma StillPlaced(net: Net, net': Net, bundle: Bundle, req: Request, v: Standing)
    requires Placed(net.server, bundle, req, v) && Untouched(net, net', bundle.meta.bundle)
    ensures Placed(net'.server, bundle, req, v) && Stands(net'.server, bundle.meta, bundle.bytes, v)
  {
    StandsBySameView(net.server, net'.server, bundle.meta, bundle.bytes, v);
  }

  lemma SentStays(reg: Registry, net: Net, net': Net, req: Request)
    requires req in net.sent && Leads(reg, net, net')
    ensures req in net'.sent
  {
  }

  lemma MaySendAfter(reg: Registry, bundle: Bundle, net: Net, net': Net, req: Request)
    requires MaySend(bundle, net, req) && Leads(reg, net, net')
    ensures MaySend(bundle, net', req)
  {
    MaySendStays(bundle, net, net', req);
  }

  lemma NotYet(req: Request, bytes: Bytes, v: Standing, attempts: nat, world: World, at: nat)
    ensures CalmSoFar(req, bytes, v, v, attempts, world, at, at)
  {
  }

  /** While a request keeps failing, the bundle stays where the request may be repeated. */
  lemma StaysPlaced(s0: Server, s: Server, bundle: Bundle, req: Request, v0: Standing, v: Standing, handled: bool)
    requires Placed(s0, bundle, req, v0) && Stands(s, bundle.meta, bundle.bytes, v)
    requires MovedBy(req, bundle.bytes, v0, v, handled)
    ensures Placed(s, bundle, req, v)
  {
    if handled {
      MovesOnce(req, bundle.meta, bundle.bytes, v0, v);
    }
  }

  lemma OneMoreElsewhere(s0: Server, before: Server, after: Server, req: Request, world: World, at: nat, next: nat,
                         other: BundleId)
    requires Grows(before, after) && at <= next
    requires Calm(after, world, at, next + 1, other) && !Concerns(after, req, other)
    requires Calm(before, world, at, next, other) && !Concerns(before, req, other) ==> SameView(s0, before, other)
    requires CalmFate(after, world(next), other) ==> SameView(before, after, other)
    ensures SameView(s0, after, other)
  {
    hide Calm, CalmFate, SameView, Grows;
    OneMoreFate(after, world, at, next, other);
    CalmEarlier(before, after, world, at, next, other);
    if Concerns(before, req, other) {
      ConcernsLater(before, after, req, other);
    }
    SameViewOn(s0, before, after, other);
  }

  lemma OneMoreExchange(reg: Registry, start: Net, before: Net, net: Net, req: Request, world: World, at: nat,
                        next: nat, other: BundleId)
    requires Leads(reg, start, before) && Leads(reg, before, net) && at <= next
    requires Calm(before.server, world, at, next, other) && !Concerns(before.server, req, other) ==>
               SameView(start.server, before.server, other)
    requires CalmFate(net.server, world(next), other) && !Concerns(net.server, req, other) ==>
               SameView(before.server, net.server, other)
    ensures Leads(reg, start, net) && Grows(start.server, before.server) && Grows(before.server, net.server)
    ensures Calm(net.server, world, at, next + 1, other) && !Concerns(net.server, req, other) ==>
              SameView(start.server, net.server, other)
  {
    hide Leads, Calm, CalmFate, SameView, Grows, Concerns;
    LeadsGrows(reg, start, before);
    LeadsGrows(reg, before, net);
    LeadsOn(reg, start, before, net);
    if Calm(net.server, world, at, next + 1, other) && !Concerns(net.server, req, other) {
      OneMoreElsewhere(start.server, before.server, net.server, req, world, at, next, other);
    }
  }

  /** One exchange more of a request beside which only others were at work. */
  lemma CalmAttempt(s0: Server, before: Server, after: Server, bundle: Bundle, req: Request, attempts: nat,
                    world: World, at: nat, next: nat, v0: Standing, v: Standing, v': Standing, a: Arrival)
    requires Grows(before, after) && at <= next < at + attempts
    requires Calm(after, world, at, next + 1, bundle.meta.bundle) && Placed(s0, bundle, req, v0)
    requires Calm(before, world, at, next, bundle.meta.bundle) ==>
               Placed(before, bundle, req, v) && CalmSoFar(req, bundle.bytes, v0, v, attempts, world, at, next)
    requires CalmFate(after, world(next), bundle.meta.bundle) && Placed(before, bundle, req, v) ==>
               && Stands(after, bundle.meta, bundle.bytes, v')
               && CalmExchange(req, bundle.bytes, v, v', world(next), a)
    ensures Stands(after, bundle.meta, bundle.bytes, v')
    ensures if Classify(a).Err? && IsTransient(Classify(a).error)
            then && Placed(after, bundle, req, v')
                 && CalmSoFar(req, bundle.bytes, v0, v', attempts, world, at, next + 1)
            else CalmRetries(req, bundle.bytes, v0, v', attempts, world, at, next + 1, Classify(a))
    ensures Classify(a) == Classify(Seen(world(next), LastAnswer(req, bundle.bytes, v0, v', world, at, next + 1)))
  {
    hide CalmFate, CalmExchange, CalmRetries, Placed, Stands, Classify, Calm, Grows, Ends, HandledIn, Seen, LastAnswer;
    OneMoreFate(after, world, at, next, bundle.meta.bundle);
    CalmEarlier(before, after, world, at, next, bundle.meta.bundle);
    PlacedFits(s0, bundle, req, v0);
    CalmStep(req, bundle.meta, bundle.bytes, v0, v, v', attempts, world, at, next, a);
    if Classify(a).Err? && IsTransient(Classify(a).error) {
      StaysPlaced(s0, after, bundle, req, v0, v', HandledIn(world, at, next + 1));
    }
  }

  lemma GaveUp(req: Request, bytes: Bytes, v0: Standing, v: Standing, attempts: nat, world: World, at: nat, next: nat,
               lastError: Option<UploadError>, r: Outcome<Reply>)
    requires CalmSoFar(req, bytes, v0, v, attempts, world, at, next) && next == at + attempts
    requires LastErrorIs(req, bytes, v0, v, world, at, next, lastError)
    requires r == Err(match lastError case Some(e) => e case None => Exhausted)
    ensures CalmRetries(req, bytes, v0, v, attempts, world, at, next, r)
  {
  }

  predicate LastErrorIs(req: Request, bytes: Bytes, v0: Standing, v: Standing, world: World, at: nat, next: nat,
                        lastError: Option<UploadError>) {
    match lastError
    case None => next == at
    case Some(e) =>
      next > at && Classify(Seen(world(next - 1), LastAnswer(req, bytes, v0, v, world, at, next))) == Err(e)
  }

  lemma OffsetIsWithin(s: Server, meta: Meta, bytes: Bytes, v: Standing)
    requires Stands(s, meta, bytes, v) && v.Active?
    ensures v.offset <= |bytes|
  {
  }

  lemma ChunkMaySend(net: Net, bundle: Bundle, id: Uuid, offset: nat, end: nat)
    requires Granted(net, bundle.meta, id) && offset < end <= |bundle.bytes| <= U64_MAX
    ensures MaySend(bundle, net, ChunkRequest(id, offset, bundle.bytes[offset..end]))
  {
  }

  lemma OthersMaySend(net: Net, bundle: Bundle, id: Uuid)
    ensures MaySend(bundle, net, InitRequest(bundle.meta))
    ensures Granted(net, bundle.meta, id) ==> MaySend(bundle, net, FinalizeRequest(id, bundle.meta.sha))
  {
  }

  lemma GrantedBy(net: Net, meta: Meta, reply: Reply)
    requires (InitRequest(meta), reply) in net.replies && reply.InitOk?
    ensures Granted(net, meta, reply.upload)
  {
  }

  lemma AcknowledgedBy(net: Net, meta: Meta, id: Uuid, reply: Reply)
    requires Granted(net, meta, id) && (FinalizeRequest(id, meta.sha), reply) in net.replies && reply.FinalizeOk?
    ensures Acknowledged(net, meta)
  {
  }

  lemma ChunkIsPlaced(s: Server, bundle: Bundle, row: nat, offset: nat, end: nat)
    requires Acceptable(bundle.meta, bundle.bytes) && Stands(s, bundle.meta, bundle.bytes, Active(row, offset))
    requires offset < end <= |bundle.bytes| <= U64_MAX && end - offset <= MAX_CHUNK_SIZE
    ensures Placed(s, bundle, ChunkRequest(UploadUuid(row), offset, bundle.bytes[offset..end]), Active(row, offset))
  {
  }

  lemma InitIsPlaced(s: Server, bundle: Bundle, v: Standing)
    ensures Acceptable(bundle.meta, bundle.bytes) && Stands(s, bundle.meta, bundle.bytes, v) ==>
              && Placed(s, bundle, InitRequest(bundle.meta), v)
              && Fits(InitRequest(bundle.meta), bundle.meta, bundle.bytes, v)
  {
  }

  lemma FinalizeIsPlaced(s: Server, bundle: Bundle, v: Standing, grant: Grant)
    requires Acceptable(bundle.meta, bundle.bytes) && Stands(s, bundle.meta, bundle.bytes, v)
    requires Initialized(v, bundle.bytes, grant) && grant.resume == |bundle.bytes|
    ensures Placed(s, bundle, FinalizeRequest(grant.upload, bundle.meta.sha), v)
  {
  }

  lemma SettledOnSession(s: Server, meta: Meta, bytes: Bytes, v: Standing)
    requires Stands(s, meta, bytes, v)
    ensures v.Settled? ==> v.session.SessionUuid?
  {
  }

  /** What follows init continues its run, and an upload leaves every other bundle's view alone. */
  lemma UploadElsewhere(reg: Registry, start: Net, net: Net, net': Net, meta: Meta, id: Uuid, world: World, at: nat,
                        mid: nat, next: nat, other: BundleId)
    requires NetInv(reg, start) && Leads(reg, start, net) && Leads(reg, net, net') && at <= mid <= next
    requires Granted(net, meta, id)
    requires Calm(net.server, world, at, mid, other) && other != meta.bundle ==>
               SameView(start.server, net.server, other)
    requires Calm(net'.server, world, mid, next, other) && !Names(net'.server, id, other) ==>
               SameView(net.server, net'.server, other)
    ensures Leads(reg, start, net') && Grows(net.server, net'.server)
    ensures Calm(net'.server, world, at, next, other) && other != meta.bundle ==>
              SameView(start.server, net'.server, other)
  {
    hide NetInv, Leads, Calm, SameView, Names, Granted;
    LeadsGrows(reg, net, net');
    LeadsOn(reg, start, net, net');
    if other != meta.bundle {
      GrantStays(reg, net, net', meta, id);
      LeadsKeepsInv(reg, start, net');
      GrantNamesOwn(reg, net', meta, id, other);
      ThenAllElsewhere(start.server, net.server, net'.server, world, at, mid, next, other);
    }
  }

  lemma InitConcernsOwn(s: Server, meta: Meta, other: BundleId)
    ensures Concerns(s, InitRequest(meta), other) <==> meta.bundle == other
  {
  }

  /** The id names an upload of that bundle. */
  predicate Names(s: Server, id: Uuid, b: BundleId) {
    id.UploadUuid? && OfBundle(s, id.index, b)
  }

  /** An upload id that was granted for one bundle names no upload of another. */
  lemma GrantNamesOwn(reg: Registry, net: Net, meta: Meta, id: Uuid, other: BundleId)
    requires NetInv(reg, net) && Granted(net, meta, id) && other != meta.bundle
    ensures !Names(net.server, id, other)
  {
    var chunkSize, resume :| (InitRequest(meta), InitOk(id, chunkSize, resume)) in net.replies;
    assert ReplyOk(net.server, InitRequest(meta), InitOk(id, chunkSize, resume));
  }

  lemma LeadsKeepsInv(reg: Registry, net: Net, net': Net)
    requires NetInv(reg, net) && Leads(reg, net, net')
    ensures NetInv(reg, net')
  {
    var es :| IsRun(reg, net, net', es);
    NetRunKeepsInv(reg, net, es);
  }

  lemma RequestNames(s: Server, id: Uuid, req: Request, other: BundleId)
    requires !req.InitRequest? && req.upload == id
    ensures Concerns(s, req, other) <==> Names(s, id, other)
  {
  }

  lemma ThenElsewhere(s0: Server, s: Server, s': Server, id: Uuid, world: World, at: nat, mid: nat, next: nat,
                      other: BundleId)
    requires Grows(s, s') && at <= mid <= next
    requires Calm(s, world, at, mid, other) && !Names(s, id, other) ==> SameView(s0, s, other)
    requires Calm(s', world, mid, next, other) && !Names(s', id, other) ==> SameView(s, s', other)
    ensures Calm(s', world, at, next, other) && !Names(s', id, other) ==> SameView(s0, s', other)
  {
    hide Calm, SameView;
    if Calm(s', world, at, next, other) && !Names(s', id, other) {
      CalmWhole(s, s', other, world, at, mid, next);
      SameViewOn(s0, s, s', other);
    }
  }

  lemma ThenAllElsewhere(s0: Server, s: Server, s': Server, world: World, at: nat, mid: nat, next: nat, other: BundleId)
    requires Grows(s, s') && at <= mid <= next
    requires Calm(s, world, at, mid, other) ==> SameView(s0, s, other)
    requires Calm(s', world, mid, next, other) ==> SameView(s, s', other)
    ensures Calm(s', world, at, next, other) ==> SameView(s0, s', other)
  {
    hide Calm, SameView;
    if Calm(s', world, at, next, other) {
      CalmWhole(s, s', other, world, at, mid, next);
      SameViewOn(s0, s, s', other);
    }
  }

  /** One request more under a granted id: the run goes on, the grant stands, other bundles are where they were. */
  lemma RequestDone(reg: Registry, start: Net, before: Net, net: Net, meta: Meta, id: Uuid, world: World, at: nat,
                    mid: nat, next: nat, other: BundleId)
    requires Leads(reg, start, before) && Leads(reg, before, net) && Granted(before, meta, id) && at <= mid <= next
    requires Calm(before.server, world, at, mid, other) && !Names(before.server, id, other) ==>
               SameView(start.server, before.server, other)
    requires Calm(net.server, world, mid, next, other) && !Names(net.server, id, other) ==>
               SameView(before.server, net.server, other)
    ensures Leads(reg, start, net) && Grows(before.server, net.server) && Granted(net, meta, id)
    ensures Calm(net.server, world, at, next, other) && !Names(net.server, id, other) ==>
              SameView(start.server, net.server, other)
  {
    hide Leads, Granted, Calm, SameView, Names, Grows;
    LeadsGrows(reg, before, net);
    LeadsOn(reg, start, before, net);
    GrantStays(reg, before, net, meta, id);
    ThenElsewhere(start.server, before.server, net.server, id, world, at, mid, next, other);
  }

  /** What is calm as a whole is calm in its parts, judged in time. */
  lemma CalmWhole(between: Server, after: Server, b: BundleId, world: World, at: nat, mid: nat, next: nat)
    requires Grows(between, after) && at <= mid <= next && Calm(after, world, at, next, b)
    ensures Calm(between, world, at, mid, b) && Calm(after, world, mid, next, b)
  {
    CalmParts(after, world, at, mid, next, b);
    CalmEarlier(between, after, world, at, mid, b);
  }

  lemma GrantIsPlaced(v0: Standing, v: Standing, bytes: Bytes, attempts: nat, world: World, at: nat, next: nat,
                      grant: Outcome<Grant>)
    requires InitEnds(v0, v, bytes, attempts, world, at, next, grant) && grant.Ok?
    ensures Initialized(v, bytes, grant.value)
  {
  }

  lemma AllIsStaged(world: World, at: nat, attempts: nat, v: Standing, v': Standing, bytes: Bytes, grant: Grant,
                    next: nat, sent: Outcome<()>)
    requires Initialized(v, bytes, grant) && sent.Ok? && (v.Active? ==> v.offset <= |bytes|)
    requires v.Active? ==>
               && v'.Active? && v'.row == grant.upload.index
               && Chunks(world, at, attempts, grant.resume, |bytes|) == Passage(next, Staged(v'.offset), sent)
    requires v.Settled? ==> v' == v && next == at
    ensures Initialized(v', bytes, grant.(resume := |bytes|))
    ensures v.Active? ==> Chunks(world, at, attempts, grant.resume, |bytes|) == Passage(next, Staged(|bytes|), Ok(()))
  {
    assert sent.value == ();
  }

  lemma NoError(req: Request, bytes: Bytes, v: Standing, world: World, at: nat)
    ensures LastErrorIs(req, bytes, v, v, world, at, at, None)
  {
  }

  lemma ErrorAt(req: Request, bytes: Bytes, v0: Standing, v: Standing, world: World, at: nat, next: nat, a: Arrival)
    requires at < next
    requires Classify(a) == Classify(Seen(world(next - 1), LastAnswer(req, bytes, v0, v, world, at, next)))
    ensures Classify(a).Err? ==> LastErrorIs(req, bytes, v0, v, world, at, next, Some(Classify(a).error))
  {
  }

  lemma EndsThere(req: Request, bytes: Bytes, v0: Standing, v: Standing, attempts: nat, world: World, at: nat,
                  next: nat, r: Outcome<Reply>)
    requires CalmRetries(req, bytes, v0, v, attempts, world, at, next, r)
    ensures next == Ends(world, at, attempts)
  {
  }

  /**
   The request carries the bytes of the bundle at its offset: as many as the server takes at a time, but no more
   than 4 MiB, or all that are left.
   */
  predicate SendsPart(req: Request, id: Uuid, bytes: Bytes, resume: nat, most: nat) {
    && req.ChunkRequest? && req.upload == id && req.offset >= resume && SliceOf(bytes, req.offset, req.data)
    && 1 <= |req.data| <= most && |req.data| <= 4_194_304
    && (|req.data| in {most, 4_194_304} || req.offset + |req.data| == |bytes|)
  }

  /** Whether an event can happen now; one that cannot is skipped. */
  predicate Happens(net: Net, e: NetEvent) {
    match e
    case Send(_, _) => false
    case Receive(device, req) => device == AGENT ==> req in net.sent
    case Advance(h, _) => h in net.handlers && TaskFits(net.server, h.task)
    case Die(h, _) => h in net.handlers
  }

  /** Those of the events that can happen in their turn have happened. */
  ghost function Ran(reg: Registry, net: Net, es: seq<NetEvent>): Net {
    if es == [] then net
    else
      var before, e := Ran(reg, net, es[..|es| - 1]), es[|es| - 1];
      if Happens(before, e) then NetNext(reg, before, e) else before
  }

  lemma NothingRan(reg: Registry, net: Net, es: seq<NetEvent>)
    ensures Ran(reg, net, es[..0]) == net
  {
  }

  lemma RanOneMore(reg: Registry, net: Net, es: seq<NetEvent>, i: nat)
    requires i < |es|
    ensures var before := Ran(reg, net, es[..i]);
            Ran(reg, net, es[..i + 1]) == if Happens(before, es[i]) then NetNext(reg, before, es[i]) else before
  {
    assert es[..i + 1][..i] == es[..i];
  }

  /** What a handler comes to that has got so far: other events run in its gaps, and may take it away. */
  ghost function Served(reg: Registry, net: Net, req: Request, o: StageResult, gaps: seq<seq<NetEvent>>, i: nat,
                        keep: bool): (Net, Option<Reply>)
    decreases StagesLeft(o)
  {
    match o
    case Answer(reply) => (net, Some(reply))
    case Continue(t) =>
      var mid := if i < |gaps| then Ran(reg, net, gaps[i]) else net;
      var h := Handler(AGENT, req, t);
      if h !in mid.handlers || !TaskFits(mid.server, t) then (mid, None)
      else
        StagesRunOut(mid.server, t, keep);
        var (s', o') := Resume(mid.server, t, keep);
        var after := Record(mid.(server := s', handlers := mid.handlers - multiset{h}), AGENT, req, o');
        Served(reg, after, req, o', gaps, i + 1, keep)
  }

  /** What becomes of a request that reaches the server. */
  ghost function Handling(reg: Registry, net: Net, req: Request, gaps: seq<seq<NetEvent>>, keep: bool)
    : (Net, Option<Reply>)
  {
    var (s, o) := Begin(net.server, AGENT, req);
    Served(reg, Record(net.(server := s), AGENT, req, o), req, o, gaps, 0, keep)
  }

  /** What one exchange with the given fate does to the network, and what arrives of it. */
  ghost function Exchanged(reg: Registry, net: Net, req: Request, fate: Fate): (Net, Arrival) {
    var mid := Ran(reg, net.(sent := net.sent + {req}), fate.beside);
    match fate.course
    case Handled(gaps, keep, _) =>
      var (net', answer) := Handling(reg, mid, req, gaps, keep);
      (net', if answer.None? then Unreachable else Seen(fate, answer.value))
    case _ => (mid, Seen(fate, Refused(INTERNAL)))
  }

  /** What comes of a request that is repeated while it fails transiently, at most that many times. */
  ghost function Retried(reg: Registry, net: Net, req: Request, world: World, at: nat, tries: nat)
    : (Net, nat, Outcome<Reply>)
    decreases tries
  {
    if tries == 0 then (net, at, Err(Exhausted))
    else
      var (net', a) := Exchanged(reg, net, req, world(at));
      var r := Classify(a);
      if tries > 1 && r.Err? && IsTransient(r.error) then Retried(reg, net', req, world, at + 1, tries - 1)
      else (net', at + 1, r)
  }

  lemma OneMoreTry(reg: Registry, net: Net, net': Net, req: Request, world: World, at: nat, tries: nat, a: Arrival)
    requires tries > 0 && (net', a) == Exchanged(reg, net, req, world(at))
    ensures var r := Classify(a);
            Retried(reg, net, req, world, at, tries)
            == if tries > 1 && r.Err? && IsTransient(r.error) then Retried(reg, net', req, world, at + 1, tries - 1)
               else (net', at + 1, r)
  {
    hide Exchanged;
  }

  lemma NoRetry(reg: Registry, net: Net, req: Request, world: World, at: nat)
    ensures Retried(reg, net, req, world, at, 0) == (net, at, Err(Exhausted))
  {
  }

  /** The server took a part that ends with the bundle. */
  ghost predicate LastPartTaken(net: Net, id: Uuid, bytes: Bytes) {
    exists o: u64 :: o < |bytes| && (ChunkRequest(id, o, bytes[o..]), ChunkOk(|bytes|)) in net.replies
  }

  /** All requests sent since then are such parts. */
  ghost predicate PartsSent(before: Net, net: Net, id: Uuid, bytes: Bytes, resume: nat, serverChunk: u64) {
    forall req :: req in net.sent && req !in before.sent ==>
      SendsPart(req, id, bytes, resume, if serverChunk < 1 then 1 else serverChunk)
  }

  lemma NoPart(net: Net, id: Uuid, bytes: Bytes, resume: nat, serverChunk: u64)
    ensures PartsSent(net, net, id, bytes, resume, serverChunk)
  {
  }

  lemma OneMorePart(before: Net, mid: Net, net: Net, id: Uuid, bytes: Bytes, resume: nat, serverChunk: u64, offset: nat,
                    end: nat)
    requires PartsSent(before, mid, id, bytes, resume, serverChunk) && resume <= offset < end <= |bytes| <= U64_MAX
    requires var most := if serverChunk < 1 then 1 else if serverChunk > DEFAULT_CHUNK_SIZE then DEFAULT_CHUNK_SIZE
                         else serverChunk;
             end == if offset + most < |bytes| then offset + most else |bytes|
    requires net.sent <= mid.sent + {ChunkRequest(id, offset, bytes[offset..end])}
    ensures PartsSent(before, net, id, bytes, resume, serverChunk)
  {
  }

  lemma TookPart(net: Net, id: Uuid, bytes: Bytes, offset: nat, end: nat)
    requires offset < end <= |bytes| <= U64_MAX
    requires (ChunkRequest(id, offset, bytes[offset..end]), ChunkOk(end)) in net.replies
    ensures end == |bytes| ==> LastPartTaken(net, id, bytes)
  {
    assert end == |bytes| ==> bytes[offset..end] == bytes[offset..];
  }

  class Link {
    var net: Net

    constructor ()
      ensures net == EMPTY_NET
    {
      net := EMPTY_NET;
    }

    method Happen(ghost reg: Registry, e: NetEvent)
      requires Happens(net, e)
      modifies this
      ensures NetEnabled(reg, old(net), e) && net == NetNext(reg, old(net), e) && net.sent == old(net).sent
    {
      match e
      case Receive(device, req) =>
        var (s, o) := Begin(net.server, device, req);
        net := Record(net.(server := s), device, req, o);
      case Advance(h, keep) =>
        var (s, o) := Resume(net.server, h.task, keep);
        net := Record(net.(server := s, handlers := net.handlers - multiset{h}), h.device, h.req, o);
      case Die(h, wrote) =>
        net := net.(server := TearWrite(net.server, h.task, wrote), handlers := net.handlers - multiset{h},
                    torn := if h.task.WriteChunk? then net.torn + {h.task.row} else net.torn);
    }

    /** Other requests and handlers at work; a bundle they are foreign to keeps its view and its handlers. */
    method Interfere(ghost reg: Registry, es: seq<NetEvent>)
      modifies this
      ensures Leads(reg, old(net), net) && net.sent == old(net).sent && net == Ran(reg, old(net), es)
      ensures forall b :: AllForeign(net.server, es, b) ==> Untouched(old(net), net, b)
    {
      hide Leads, NetNext, NetEnabled, Grows, Untouched, AllForeign, Ran;
      LeadsNowhere(reg, net);
      NothingRan(reg, net, es);
      NothingDone(net);
      for i := 0 to |es|
        invariant Leads(reg, old(net), net) && net.sent == old(net).sent && net == Ran(reg, old(net), es[..i])
        invariant forall b :: AllForeign(net.server, es[..i], b) ==> Untouched(old(net), net, b)
      {
        ghost var before := net;
        var happens := Happens(net, es[i]);
        RanOneMore(reg, old(net), es, i);
        if happens {
          Happen(reg, es[i]);
          LeadsStep(reg, before, es[i]);
          NextGrows(reg, before, es[i]);
          LeadsGrows(reg, old(net), before);
          LeadsOn(reg, old(net), before, net);
        }
        forall b | AllForeign(net.server, es[..i + 1], b) ensures Untouched(old(net), net, b) {
          if happens {
            OneMoreForeign(reg, old(net), before, es, i, b);
          } else {
            FewerForeign(net.server, es, i, b);
          }
        }
      }
      assert es[..|es|] == es;
    }

    /** Runs the handler of a request to its end, unless something else takes it away. */
    method Process(ghost reg: Registry, ghost bundle: Bundle, req: Request, gaps: seq<seq<NetEvent>>, keep: bool,
                   ghost v: Standing, ghost other: BundleId)
      returns (answer: Option<Reply>, ghost v': Standing)
      requires req in net.sent
      modifies this
      ensures Leads(reg, old(net), net) && net.sent == old(net).sent
      ensures (net, answer) == Handling(reg, old(net), req, gaps, keep)
      ensures answer.Some? ==> (req, answer.value) in net.replies && ReplyFrom(old(net).server, req, answer.value)
      ensures GapsForeign(net.server, gaps, |gaps|, bundle.meta.bundle) && Placed(old(net).server, bundle, req, v) ==>
                Stands(net.server, bundle.meta, bundle.bytes, v') && Moves(req, bundle.bytes, v, v')
                && answer == Some(AnswerTo(req, bundle.bytes, v, v'))
      ensures GapsForeign(net.server, gaps, |gaps|, other) && !Concerns(net.server, req, other) ==>
                SameView(old(net).server, net.server, other)
    {
      hide Leads, Begin, Resume, Placed, Moves, AnswerTo, Grows, GapsForeign, Stands, StagesLeft, Concerns, SameView,
           MayAnswer, GoesWell, Untouched, Ran;
      v' := v;
      ghost var s0 := net.server;
      BeginFits(s0, req);
      LeadsStep(reg, net, Receive(AGENT, req));
      StartsWell(reg, net, bundle, req, v, gaps, other);
      var (s, o) := Begin(net.server, AGENT, req);
      net := Record(net.(server := s), AGENT, req, o);
      GrowsSelf(s0);
      AnswersFrom(s0, req, o);
      var i := 0;
      while o.Continue?
        invariant Leads(reg, old(net), net) && net.sent == old(net).sent && (o.Answer? || o.Continue?)
        invariant o.Continue? ==> TaskFits(net.server, o.task)
        invariant Served(reg, net, req, o, gaps, i, keep) == Handling(reg, old(net), req, gaps, keep)
        invariant o.Answer? ==> (req, o.reply) in net.replies && MayAnswer(s0, req, o.reply)
        invariant o.Continue? ==> Begin(s0, AGENT, req).1.Continue?
        invariant GoesWell(s0, net, bundle, req, v, o, gaps, i, other)
        decreases StagesLeft(o)
      {
        ghost var before := net;
        LeadsNowhere(reg, net);
        if i < |gaps| {
          Interfere(reg, gaps[i]);
        }
        LeadsGrows(reg, before, net);
        LeadsOn(reg, old(net), before, net);
        TaskFitsLater(before.server, net.server, o.task);
        GapGoesWell(s0, before, net, bundle, req, v, o, gaps, i, other);
        var h := Handler(AGENT, req, o.task);
        if h !in net.handlers {
          TakenAway(s0, net, bundle, req, v, o, gaps, i + 1, other);
          return None, v;
        }
        ghost var mid := net;
        StagesRunOut(net.server, o.task, keep);
        StageGoesWell(reg, s0, net, bundle, req, v, o.task, keep, gaps, i + 1, other);
        var (s', o') := Resume(net.server, o.task, keep);
        LeadsStep(reg, net, Advance(h, keep));
        net := Record(net.(server := s', handlers := net.handlers - multiset{h}), AGENT, req, o');
        LeadsOn(reg, old(net), mid, net);
        if o'.Answer? {
          AnswersLater(s0, req, o'.reply);
        }
        o, i := o', i + 1;
      }
      answer := Some(o.reply);
      v' := EndsWell(s0, net, bundle, req, v, o.reply, gaps, i, other);
    }

    /** One request on the wire, and whatever of its reply arrives. */
    method Exchange(ghost reg: Registry, ghost bundle: Bundle, req: Request, fate: Fate, ghost v: Standing,
                    ghost other: BundleId)
      returns (a: Arrival, ghost v': Standing)
      requires bundle.meta.bundle in reg && reg[bundle.meta.bundle] == bundle && MaySend(bundle, net, req)
      modifies this
      ensures Leads(reg, old(net), net) && net.sent == old(net).sent + {req}
      ensures (net, a) == Exchanged(reg, old(net), req, fate)
      ensures a.Got? && Success(a.reply) ==> (req, a.reply) in net.replies && ReplyFrom(old(net).server, req, a.reply)
      ensures !fate.course.Handled? ==> forall reply :: a == Seen(fate, reply)
      ensures fate.course.Handled? ==>
                a == Unreachable || exists reply :: (req, reply) in net.replies && a == Seen(fate, reply)
      ensures a == Crashed ==> Dies(fate)
      ensures CalmFate(net.server, fate, bundle.meta.bundle) && Placed(old(net).server, bundle, req, v) ==>
                && Stands(net.server, bundle.meta, bundle.bytes, v')
                && CalmExchange(req, bundle.bytes, v, v', fate, a)
      ensures CalmFate(net.server, fate, other) && !Concerns(net.server, req, other) ==>
                SameView(old(net).server, net.server, other)
    {
      hide Leads, MaySend, Placed, Moves, AnswerTo, GapsForeign, AllForeign, Stands, Grows, Untouched, ReplyFrom,
           SameView, Concerns, Ran, Handling;
      ghost var b := bundle.meta.bundle;
      ghost var start := Placed(net.server, bundle, req, v);
      LeadsStep(reg, net, Send(b, req));
      net := net.(sent := net.sent + {req});
      ghost var sent := net;
      Interfere(reg, fate.beside);
      assert AllForeign(net.server, fate.beside, b) ==> Untouched(sent, net, b);
      assert AllForeign(net.server, fate.beside, other) ==> Untouched(sent, net, other);
      LeadsOn(reg, old(net), sent, net);
      ghost var mid := net;
      LeadsGrows(reg, old(net), mid);
      if start && Untouched(sent, mid, b) {
        StillPlaced(sent, mid, bundle, req, v);
      }
      v' := v;
      match fate.course {
        case Handled(gaps, keep, hearing) =>
          SentStays(reg, sent, mid, req);
          var answer;
          answer, v' := Process(reg, bundle, req, gaps, keep, v, other);
          LeadsOn(reg, old(net), mid, net);
          LeadsGrows(reg, mid, net);
          a := if answer.None? then Unreachable else Seen(fate, answer.value);
          if answer.Some? {
            ReplyFromEarlier(old(net).server, mid.server, req, answer.value);
          }
        case _ => a := Seen(fate, Refused(INTERNAL));
      }
      if CalmFate(net.server, fate, b) {
        GrowsSelf(net.server);
        AllForeignEarlier(mid.server, net.server, fate.beside, b);
      }
      if CalmFate(net.server, fate, other) {
        GrowsSelf(net.server);
        AllForeignEarlier(mid.server, net.server, fate.beside, other);
        ViewAfterGap(sent, mid, net.server, other);
      }
    }

    /** Repeats a request while it fails transiently, sleeping between attempts; one fate for each. */
    method WithRetries(ghost reg: Registry, ghost bundle: Bundle, policy: RetryPolicy, req: Request, world: World,
                       at: nat, ghost v: Standing, ghost other: BundleId)
      returns (r: Outcome<Reply>, slept: nat, next: nat, ghost v': Standing)
      requires bundle.meta.bundle in reg && reg[bundle.meta.bundle] == bundle && MaySend(bundle, net, req)
      modifies this
      ensures Leads(reg, old(net), net)
      ensures r.Ok? ==> Success(r.value) && (req, r.value) in net.replies && ReplyFrom(old(net).server, req, r.value)
      ensures at <= next <= at + policy.maxAttempts && (policy.maxAttempts > 0 ==> next > at)
      ensures r.Halted? ==> DiesAt(world, at, next)
      ensures slept == TotalDelay(policy, if next == at then 0 else next - at - 1)
      ensures (net, next, r) == Retried(reg, old(net), req, world, at, policy.maxAttempts)
      ensures net.sent == old(net).sent + if next > at then {req} else {}
      ensures forall k :: at <= k < next - 1 ==> AskedAgain(world(k).course)
      ensures next > at ==> EndedBy(world(next - 1).course, r, next == at + policy.maxAttempts)
      ensures Calm(net.server, world, at, next, bundle.meta.bundle) && Placed(old(net).server, bundle, req, v) ==>
                && Stands(net.server, bundle.meta, bundle.bytes, v')
                && CalmRetries(req, bundle.bytes, v, v', policy.maxAttempts, world, at, next, r)
      ensures Calm(net.server, world, at, next, other) && !Concerns(net.server, req, other) ==>
                SameView(old(net).server, net.server, other)
    {
      hide Leads, CalmExchange, MaySend, Grows, Placed, Stands, Fits, CalmFate, ReplyFrom, CalmSoFar, CalmRetries, Calm,
           Acceptable, SameView, Concerns, FindResumable, LastErrorIs, Seen, AskedAgain, EndedBy,
           Exchanged, Retried;
      LeadsNowhere(reg, net);
      SameViewSelf(net.server, other);
      slept, next, v' := 0, at, v;
      ghost var b, start, attempts := bundle.meta.bundle, Placed(net.server, bundle, req, v), policy.maxAttempts;
      ghost var goal := Retried(reg, net, req, world, at, policy.maxAttempts);
      NotYet(req, bundle.bytes, v, attempts, world, at);
      var lastError: Option<UploadError> := None;
      NoError(req, bundle.bytes, v, world, at);
      for attempt := 1 to policy.maxAttempts + 1
        invariant Leads(reg, old(net), net)
        invariant next == at + attempt - 1
        invariant net.sent == old(net).sent + if next > at then {req} else {}
        invariant forall k :: at <= k < next ==> AskedAgain(world(k).course)
        invariant (next > at <==> lastError.Some?)
        invariant next > at ==> EndedBy(world(next - 1).course, Err(lastError.value), true)
        invariant goal == if attempt <= policy.maxAttempts || attempt == 1
                          then Retried(reg, net, req, world, next, policy.maxAttempts + 1 - attempt)
                          else (net, next, Err(lastError.value))
        invariant slept == TotalDelay(policy, if attempt <= policy.maxAttempts || attempt == 1 then attempt - 1
                                              else attempt - 2)
        invariant start && Calm(net.server, world, at, next, b) ==>
                    && Placed(net.server, bundle, req, v')
                    && CalmSoFar(req, bundle.bytes, v, v', attempts, world, at, next)
                    && LastErrorIs(req, bundle.bytes, v, v', world, at, next, lastError)
        invariant Calm(net.server, world, at, next, other) && !Concerns(net.server, req, other) ==>
                    SameView(old(net).server, net.server, other)
      {
        MaySendAfter(reg, bundle, old(net), net, req);
        ghost var before, v1 := net, v';
        var a;
        a, v' := Exchange(reg, bundle, req, world(next), v1, other);
        WhatIsAskedAgain(world(next), a);
        OneMoreTry(reg, before, net, req, world, next, policy.maxAttempts + 1 - attempt, a);
        next := next + 1;
        OneMoreExchange(reg, old(net), before, net, req, world, at, next - 1, other);
        if start && Calm(net.server, world, at, next, b) {
          CalmAttempt(old(net).server, before.server, net.server, bundle, req, attempts, world, at, next - 1, v, v1, v',
                      a);
          ErrorAt(req, bundle.bytes, v, v', world, at, next, a);
        }
        match Classify(a) {
          case Ok(reply) =>
            ReplyFromEarlier(old(net).server, before.server, req, reply);
            return Ok(reply), slept, next, v';
          case Halted => return Halted, slept, next, v';
          case Err(e) =>
            if !IsTransient(e) {
              return Err(e), slept, next, v';
            }
            lastError := Some(e);
        }
        if attempt < policy.maxAttempts {
          slept := slept + DelayFor(policy, attempt);
        }
      }
      r := Err(match lastError case Some(e) => e case None => Exhausted);
      NoRetry(reg, net, req, world, next);
      if start && Calm(net.server, world, at, next, b) {
        PlacedFits(net.server, bundle, req, v');
        GaveUp(req, bundle.bytes, v, v', attempts, world, at, next, lastError, r);
      }
    }

    /** Sends the bytes from `offset` to `end` and checks the offset that the server answers with. */
    method SendChunk(ghost reg: Registry, policy: RetryPolicy, meta: Meta, bytes: Bytes, id: Uuid, offset: nat,
                     end: nat, world: World, at: nat, ghost v: Standing, ghost other: BundleId)
      returns (r: Outcome<()>, next: nat, ghost v': Standing)
      requires meta.bundle in reg && reg[meta.bundle] == Bundle(meta, bytes) && Granted(net, meta, id)
      requires offset < end <= |bytes| <= U64_MAX && end - offset <= MAX_CHUNK_SIZE
      modifies this
      ensures Leads(reg, old(net), net) && at <= next && (r.Halted? ==> DiesAt(world, at, next))
      ensures net.sent <= old(net).sent + {ChunkRequest(id, offset, bytes[offset..end])}
      ensures r.Ok? ==> (ChunkRequest(id, offset, bytes[offset..end]), ChunkOk(end)) in net.replies
      ensures Calm(net.server, world, at, next, meta.bundle) && id.UploadUuid? && v == Active(id.index, offset)
              && Acceptable(meta, bytes) && Stands(old(net).server, meta, bytes, v) ==>
                && Stands(net.server, meta, bytes, v') && next == Ends(world, at, policy.maxAttempts)
                && v' == Active(id.index, if HandledIn(world, at, next) then end else offset)
                && r == Told(world, at, next, if HandledBefore(world, at, next) then Some(CONFLICT) else None)
      ensures Calm(net.server, world, at, next, other) && !Names(net.server, id, other) ==>
                SameView(old(net).server, net.server, other)
    {
      hide CalmRetries, Leads, ReplyFrom, Grows, Stands, Moves, Placed, CalmFate, Calm, MaySend, Granted, Acceptable,
           Told, Ends, HandledIn, SameView, Names, Concerns, FindResumable, TotalDelay;
      var req := ChunkRequest(id, offset, bytes[offset..end]);
      ghost var bundle, before := Bundle(meta, bytes), net;
      ChunkMaySend(net, bundle, id, offset, end);
      var reply, slept;
      reply, slept, next, v' := WithRetries(reg, bundle, policy, req, world, at, v, other);
      RequestNames(net.server, id, req, other);
      if Calm(net.server, world, at, next, meta.bundle) && id.UploadUuid? && v == Active(id.index, offset)
         && Acceptable(meta, bytes) && Stands(before.server, meta, bytes, v) {
        ChunkIsPlaced(before.server, bundle, id.index, offset, end);
        EndsThere(req, bytes, v, v', policy.maxAttempts, world, at, next, reply);
        ChunkSettles(bytes, id.index, offset, end, v', policy.maxAttempts, world, at, next, reply);
      }
      r := match reply
           case Ok(ChunkOk(nextOffset)) => if nextOffset == end then Ok(()) else Err(OffsetMismatch(end, nextOffset))
           case Ok(_) => Err(Decode)  // The body of a success response always has the type of its request.
           case Err(e) => Err(e)
           case Halted => Halted;
    }

    /** The chunk loop: sends the bytes from `resume` on, one chunk after the other. */
    method SendChunks(ghost reg: Registry, policy: RetryPolicy, meta: Meta, bytes: Bytes, id: Uuid,
                      serverChunk: u64, resume: nat, world: World, at: nat, ghost v: Standing, ghost other: BundleId)
      returns (r: Outcome<()>, next: nat, ghost v': Standing)
      requires meta.bundle in reg && reg[meta.bundle] == Bundle(meta, bytes) && Granted(net, meta, id)
      requires |bytes| <= U64_MAX
      modifies this
      ensures Leads(reg, old(net), net) && Granted(net, meta, id) && at <= next
      ensures r.Halted? ==> DiesAt(world, at, next)
      ensures PartsSent(old(net), net, id, bytes, resume, serverChunk)
      ensures r.Ok? && resume < |bytes| ==> LastPartTaken(net, id, bytes)
      ensures Calm(net.server, world, at, next, meta.bundle) && id.UploadUuid? && v == Active(id.index, resume)
              && serverChunk == SERVER_CHUNK_SIZE && Acceptable(meta, bytes)
              && Stands(old(net).server, meta, bytes, v) ==>
                && Stands(net.server, meta, bytes, v') && v'.Active? && v'.row == id.index
                && Chunks(world, at, policy.maxAttempts, resume, |bytes|) == Passage(next, Staged(v'.offset), r)
      ensures resume >= |bytes| ==> r == Ok(()) && net == old(net) && next == at && v' == v
      ensures Calm(net.server, world, at, next, other) && !Names(net.server, id, other) ==>
                SameView(old(net).server, net.server, other)
    {
      hide Leads, Grows, Stands, Calm, Granted, Acceptable, SameView, Names, FindResumable, Told, Ends, HandledIn,
           PartsSent, LastPartTaken;
      SameViewSelf(net.server, other);
      var total := |bytes|;
      var chunkSize := if serverChunk < 1 then 1
                       else if serverChunk > DEFAULT_CHUNK_SIZE then DEFAULT_CHUNK_SIZE else serverChunk;
      var offset := resume;
      LeadsNowhere(reg, net);
      NoPart(net, id, bytes, resume, serverChunk);
      r, next, v' := Ok(()), at, v;
      ghost var b, attempts := meta.bundle, policy.maxAttempts;
      ghost var start := id.UploadUuid? && v == Active(id.index, resume) && serverChunk == SERVER_CHUNK_SIZE
                         && Acceptable(meta, bytes) && Stands(net.server, meta, bytes, v);
      while offset < total
        invariant Leads(reg, old(net), net) && Granted(net, meta, id) && at <= next
        invariant offset == resume || resume <= offset <= total
        invariant offset == total > resume ==> LastPartTaken(net, id, bytes)
        invariant PartsSent(old(net), net, id, bytes, resume, serverChunk)
        invariant start && Calm(net.server, world, at, next, b) ==>
                    && Stands(net.server, meta, bytes, v') && v' == Active(id.index, offset)
                    && Chunks(world, at, attempts, resume, total) == Chunks(world, next, attempts, offset, total)
        invariant resume >= total ==> net == old(net) && offset == resume && next == at && v' == v
        invariant Calm(net.server, world, at, next, other) && !Names(net.server, id, other) ==>
                    SameView(old(net).server, net.server, other)
        decreases total - offset
      {
        var end := if offset + chunkSize < total then offset + chunkSize else total;
        ghost var before, v1 := net, v';
        var mid := next;
        r, next, v' := SendChunk(reg, policy, meta, bytes, id, offset, end, world, mid, v1, other);
        RequestDone(reg, old(net), before, net, meta, id, world, at, mid, next, other);
        OneMorePart(old(net), before, net, id, bytes, resume, serverChunk, offset, end);
        if start && Calm(net.server, world, at, next, b) {
          CalmWhole(before.server, net.server, b, world, at, mid, next);
          ToldOk(world, mid, next, if HandledBefore(world, mid, next) then Some(CONFLICT) else None);
        }
        if !r.Ok? {
          return;
        }
        TookPart(net, id, bytes, offset, end);
        offset := end;
      }
      r := Ok(());
      if start && Calm(net.server, world, at, next, b) {
        OffsetIsWithin(net.server, meta, bytes, v');
      }
    }

    /** The chunk loop followed by finalize, for an upload that init has granted. */
    method Transfer(ghost reg: Registry, policy: RetryPolicy, meta: Meta, bytes: Bytes, grant: Grant, world: World,
                    at: nat, ghost v: Standing, ghost other: BundleId)
      returns (r: Outcome<Uuid>, next: nat, ghost v': Standing)
      requires meta.bundle in reg && reg[meta.bundle] == Bundle(meta, bytes) && Granted(net, meta, grant.upload)
      requires |bytes| <= U64_MAX
      modifies this
      ensures Leads(reg, old(net), net) && at <= next && (r.Halted? ==> DiesAt(world, at, next))
      ensures r.Ok? ==> Acknowledged(net, meta) && grant.upload.UploadUuid?
      ensures Calm(net.server, world, at, next, meta.bundle) && Acceptable(meta, bytes)
              && Stands(old(net).server, meta, bytes, v) && Initialized(v, bytes, grant) ==>
                && Stands(net.server, meta, bytes, v')
                && Passes(Rest(world, at, policy.maxAttempts, ReachedBy(v), |bytes|), v, v', next, r)
      ensures Calm(net.server, world, at, next, other) && !Names(net.server, grant.upload, other) ==>
                SameView(old(net).server, net.server, other)
    {
      hide CalmRetries, Leads, Stands, Placed, ReplyFrom, Grows, Calm, MaySend, Granted, Acknowledged, Acceptable,
           SameView, Names, Concerns, Passes, Rest, Chunks, FindResumable, TotalDelay;
      ghost var bundle, b, attempts := Bundle(meta, bytes), meta.bundle, policy.maxAttempts;
      ghost var start := Acceptable(meta, bytes) && Stands(net.server, meta, bytes, v) && Initialized(v, bytes, grant);
      if start && v.Active? {
        OffsetIsWithin(net.server, meta, bytes, v);
      }
      var id := grant.upload;
      var sent, mid;
      ghost var v1;
      sent, mid, v1 := SendChunks(reg, policy, meta, bytes, id, grant.chunkSize, grant.resume, world, at, v, other);
      if !sent.Ok? {
        r, next, v' := if sent.Halted? then Halted else Err(sent.error), mid, v1;
        if start && Calm(net.server, world, at, next, b) {
          ChunksFailed(bytes, v, v', attempts, world, at, next, sent, r);
        }
        return;
      }
      ghost var staged := net;
      OthersMaySend(net, bundle, id);
      var fin, slept;
      fin, slept, next, v' := WithRetries(reg, bundle, policy, FinalizeRequest(id, meta.sha), world, mid, v1, other);
      RequestNames(net.server, id, FinalizeRequest(id, meta.sha), other);
      RequestDone(reg, old(net), staged, net, meta, id, world, at, mid, next, other);
      if fin.Ok? && id.SessionUuid? {
        SessionIdNeverFinalizes(staged.server, id, meta.sha, fin.value);
      }
      r := match fin
           case Ok(FinalizeOk(session)) => Ok(session)
           case Ok(_) => Err(Decode)
           case Err(e) => Err(e)
           case Halted => Halted;
      if r.Ok? {
        AcknowledgedBy(net, meta, id, fin.value);
      }
      if start && Calm(net.server, world, at, next, b) {
        CalmWhole(staged.server, net.server, b, world, at, mid, next);
        AllIsStaged(world, at, attempts, v, v1, bytes, grant, mid, sent);
        FinalizeIsPlaced(staged.server, bundle, v1, grant.(resume := |bytes|));
        CalmFinalize(meta, bytes, v1, v', grant, attempts, world, mid, next, fin, r);
        ChunksThenFinalize(bytes, v, v1, v', grant, attempts, world, at, mid, next, r);
      }
    }

    /** Init with retries. */
    method InitUpload(ghost reg: Registry, policy: RetryPolicy, meta: Meta, world: World, at: nat, ghost v: Standing,
                      ghost other: BundleId)
      returns (r: Outcome<Grant>, next: nat, ghost v': Standing)
      requires meta.bundle in reg && reg[meta.bundle].meta == meta
      modifies this
      ensures Leads(reg, old(net), net) && net.sent <= old(net).sent + {InitRequest(meta)}
      ensures r.Ok? ==> Granted(net, meta, r.value.upload)
      ensures r.Ok? && HasSession(old(net).server, meta) ==> !r.value.upload.UploadUuid?
      ensures at <= next && (policy.maxAttempts > 0 ==> next > at) && (r.Halted? ==> DiesAt(world, at, next))
      ensures Calm(net.server, world, at, next, meta.bundle) && Acceptable(meta, reg[meta.bundle].bytes)
              && Stands(old(net).server, meta, reg[meta.bundle].bytes, v) ==>
                && Stands(net.server, meta, reg[meta.bundle].bytes, v')
                && InitEnds(v, v', reg[meta.bundle].bytes, policy.maxAttempts, world, at, next, r)
      ensures Calm(net.server, world, at, next, other) && other != meta.bundle ==>
                SameView(old(net).server, net.server, other)
    {
      hide CalmRetries, Leads, Stands, Placed, ReplyFrom, Grows, Calm, MaySend, Granted, Acceptable, Initialized,
           HasSession, SameView, Names, Concerns, Fits, InitEnds, FindResumable, TotalDelay;
      ghost var bundle, before := reg[meta.bundle], net;
      OthersMaySend(net, bundle, UploadUuid(0));
      var reply, slept;
      reply, slept, next, v' := WithRetries(reg, bundle, policy, InitRequest(meta), world, at, v, other);
      InitConcernsOwn(net.server, meta, other);
      InitIsPlaced(before.server, bundle, v);
      r := match reply
           case Ok(InitOk(id, chunkSize, resume)) => Ok(Grant(id, chunkSize, resume))
           case Ok(_) => Err(Decode)
           case Err(e) => Err(e)
           case Halted => Halted;
      if r.Ok? {
        GrantedBy(net, meta, reply.value);
        CommittedGetsNoUpload(before.server, meta, reply.value);
      }
      if Calm(net.server, world, at, next, meta.bundle) && Acceptable(meta, bundle.bytes)
         && Stands(before.server, meta, bundle.bytes, v) {
        SettledOnSession(before.server, meta, bundle.bytes, v);
        CalmInit(meta, bundle.bytes, v, v', policy.maxAttempts, world, at, next, reply, r);
      }
    }

    /**
     Uploads one bundle: init, then chunks from the offset the server resumes at, then finalize.
     `zip` is what reading the bundle's file yields, or None when that fails. What comes of it is what
     the fates decide, as long as nobody else works on the bundle.
     */
    method Upload(ghost reg: Registry, policy: RetryPolicy, meta: Meta, zip: Option<Bytes>, world: World, at: nat,
                  ghost v: Standing, ghost other: BundleId)
      returns (r: Outcome<Uuid>, next: nat, ghost v': Standing)
      requires NetInv(reg, net) && meta.bundle in reg && reg[meta.bundle].meta == meta
      requires zip.Some? && |zip.value| == meta.size ==> zip.value == reg[meta.bundle].bytes
      modifies this
      ensures Leads(reg, old(net), net)
      ensures zip.Some? && |zip.value| != meta.size ==> !r.Ok? && net.sent <= old(net).sent + {InitRequest(meta)}
      ensures r.Ok? ==> Acknowledged(net, meta)
      ensures r.Ok? ==> !HasSession(old(net).server, meta)
      ensures at <= next && (policy.maxAttempts > 0 ==> next > at) && (r.Halted? ==> DiesAt(world, at, next))
      ensures Calm(net.server, world, at, next, meta.bundle) && Acceptable(meta, reg[meta.bundle].bytes)
              && Stands(old(net).server, meta, reg[meta.bundle].bytes, v)
              && (zip.Some? ==> |zip.value| == meta.size) ==>
                var size := |reg[meta.bundle].bytes|;
                && Stands(net.server, meta, reg[meta.bundle].bytes, v')
                && Passes(Attempted(world, at, policy.maxAttempts, ReachedBy(v), size, zip.Some?), v, v', next, r)
      ensures Calm(net.server, world, at, next, other) && other != meta.bundle ==>
                SameView(old(net).server, net.server, other)
    {
      hide Leads, Stands, Grows, Calm, Granted, Acknowledged, Acceptable, Initialized, HasSession, SameView, Names,
           NetInv, Concerns, FindResumable, Passes, Rest, Attempted, InitEnds;
      ghost var s0, bundle, attempts := net.server, reg[meta.bundle], policy.maxAttempts;
      var grant, mid;
      ghost var v1;
      grant, mid, v1 := InitUpload(reg, policy, meta, world, at, v, other);
      ghost var granted := net;
      v', next := v1, mid;
      if !grant.Ok? || zip.None? {
        r := if grant.Halted? then Halted else if grant.Err? then Err(grant.error) else Err(ReadError);
        if Calm(net.server, world, at, next, meta.bundle) && Acceptable(meta, bundle.bytes)
           && Stands(s0, meta, bundle.bytes, v) {
          InitThenRest(bundle.bytes, v, v1, v', attempts, world, at, mid, next, zip.Some?, grant, r);
        }
        return;
      }
      var bytes := zip.value;
      if |bytes| != meta.size {
        return Err(SizeDrift(meta.size, |bytes|)), next, v';
      }
      r, next, v' := Transfer(reg, policy, meta, bytes, grant.value, world, mid, v1, other);
      UploadElsewhere(reg, old(net), granted, net, meta, grant.value.upload, world, at, mid, next, other);
      if Calm(net.server, world, at, next, meta.bundle) && Acceptable(meta, bytes) && Stands(s0, meta, bytes, v) {
        CalmWhole(granted.server, net.server, meta.bundle, world, at, mid, next);
        GrantIsPlaced(v, v1, bytes, attempts, world, at, mid, grant);
        InitThenRest(bytes, v, v1, v', attempts, world, at, mid, next, true, grant, r);
      }
    }
  }

  // ---------------------------------------------------------------------------------------------
  // Progress
  // ---------------------------------------------------------------------------------------------

  /**
   One attempt: the server before and after it, whether the agent took it for a success, whether the bundle's
   file could be read, and the exchanges it went through, each operation with that many tries.
   */
  datatype Attempt = Attempt(before: Server, after: Server, accepted: bool, readable: bool, world: World, at: nat,
                             next: nat, tries: nat)

  /** What the attempt lost: exchanges, and its file if that could not be read. */
  function Losses(a: Attempt): nat {
    LossesIn(a.world, a.at, a.next) + if a.readable then 0 else 1
  }

  /** The server's reply to the last request of the attempt arrived. */
  predicate Answered(a: Attempt) {
    a.next > a.at && !Lossy(a.world(a.next - 1))
  }

  /** What the contract of `Upload` says of an attempt beside which only others were at work. */
  ghost predicate IsAttempt(a: Attempt, meta: Meta, bytes: Bytes) {
    a.tries > 0 && exists v, v' :: AttemptBy(a, meta, bytes, v, v')
  }

  predicate AttemptBy(a: Attempt, meta: Meta, bytes: Bytes, v: Standing, v': Standing) {
    var p := Attempted(a.world, a.at, a.tries, ReachedBy(v), |bytes|, a.readable);
    && Stands(a.before, meta, bytes, v) && Stands(a.after, meta, bytes, v') && (v.Settled? ==> v' == v)
    && a.next == p.next && ReachedBy(v') == p.reached && (a.accepted <==> p.end.Ok?)
  }

  /** Attempts one after the other; in between, other devices and other bundles may do what they like. */
  ghost predicate AttemptChain(attempts: seq<Attempt>, meta: Meta, bytes: Bytes) {
    && (forall i :: 0 <= i < |attempts| ==> IsAttempt(attempts[i], meta, bytes))
    && (forall i, j :: 0 <= i < |attempts| && 0 <= j < |attempts| && j == i + 1 ==>
          SameView(attempts[i].after, attempts[j].before, meta.bundle))
  }

  function TotalLosses(attempts: seq<Attempt>): nat {
    if attempts == [] then 0 else TotalLosses(attempts[..|attempts| - 1]) + Losses(attempts[|attempts| - 1])
  }

  /** What an attempt does, told by sessions and fates alone. */
  lemma AttemptEffect(a: Attempt, meta: Meta, bytes: Bytes)
    requires IsAttempt(a, meta, bytes)
    ensures Committed(a.before, meta.bundle) ==>
              && !a.accepted && Committed(a.after, meta.bundle)
              && a.after.sessions[(AGENT, meta.bundle)] == a.before.sessions[(AGENT, meta.bundle)]
    ensures !Committed(a.before, meta.bundle) ==>
              && (a.accepted ==> Committed(a.after, meta.bundle)) && (!a.accepted ==> Losses(a) > 0)
              && (Committed(a.after, meta.bundle) ==> (a.accepted <==> Answered(a)))
    ensures Committed(a.after, meta.bundle) ==> a.after.sessions[(AGENT, meta.bundle)].blob == bytes
  {
    var v, v' :| AttemptBy(a, meta, bytes, v, v');
    AttemptDecided(a.world, a.at, a.tries, ReachedBy(v), |bytes|, a.readable);
    hide Attempted, LossesIn;
  }

  lemma ChainPrefix(attempts: seq<Attempt>, meta: Meta, bytes: Bytes, n: nat)
    requires AttemptChain(attempts, meta, bytes) && n <= |attempts|
    ensures AttemptChain(attempts[..n], meta, bytes)
  {
  }

  /**
   Progress: attempts that outnumber the losses they suffer commit the bundle, whatever other bundles and
   other devices do beside them and in between.
   */
  lemma {:induction false} CommittedOnceLossesRunOut(attempts: seq<Attempt>, meta: Meta, bytes: Bytes)
    requires AttemptChain(attempts, meta, bytes) && |attempts| > TotalLosses(attempts)
    ensures Committed(attempts[|attempts| - 1].after, meta.bundle)
    ensures attempts[|attempts| - 1].after.sessions[(AGENT, meta.bundle)].blob == bytes
  {
    hide IsAttempt;
    var last := attempts[|attempts| - 1];
    var init := attempts[..|attempts| - 1];
    AttemptEffect(last, meta, bytes);
    if Losses(last) > 0 {
      ChainPrefix(attempts, meta, bytes, |attempts| - 1);
      CommittedOnceLossesRunOut(init, meta, bytes);
      assert init[|init| - 1] == attempts[|init| - 1];
      assert SameView(attempts[|init| - 1].after, attempts[|init|].before, meta.bundle);
    }
  }

  /** Between two attempts: foreign work, or a request of the bundle itself that arrives late and is handled whole. */
  ghost predicate Drifts(s: Server, s': Server, meta: Meta, bytes: Bytes) {
    SameView(s, s', meta.bundle) || exists req, v :: LateStep(s, s', meta, bytes, req, v)
  }

  predicate LateStep(s: Server, s': Server, meta: Meta, bytes: Bytes, req: Request, v: Standing) {
    Stands(s, meta, bytes, v) && IsLate(req, meta, bytes, v) && s' == Handle(s, AGENT, req).0
  }

  lemma DriftKeeps(s: Server, s': Server, meta: Meta, bytes: Bytes)
    requires Drifts(s, s', meta, bytes) && Healthy(s, meta, bytes) && Acceptable(meta, bytes)
    ensures Healthy(s', meta, bytes)
    ensures Committed(s, meta.bundle) ==>
              Committed(s', meta.bundle) && s'.sessions[(AGENT, meta.bundle)] == s.sessions[(AGENT, meta.bundle)]
  {
    if SameView(s, s', meta.bundle) {
      var v :| Stands(s, meta, bytes, v);
      StandsBySameView(s, s', meta, bytes, v);
    } else {
      var req, v :| LateStep(s, s', meta, bytes, req, v);
      var v' := LateRequestDoesNoHarm(s, meta, bytes, req, v);
    }
  }

  /** A run of such steps from the end of one attempt to the beginning of the next. */
  ghost predicate DriftsAll(ss: seq<Server>, meta: Meta, bytes: Bytes) {
    && ss != [] && forall i, j :: 0 <= i < |ss| && 0 <= j < |ss| && j == i + 1 ==> Drifts(ss[i], ss[j], meta, bytes)
  }

  lemma {:induction false} DriftsKeep(ss: seq<Server>, meta: Meta, bytes: Bytes)
    requires DriftsAll(ss, meta, bytes) && Healthy(ss[0], meta, bytes) && Acceptable(meta, bytes)
    ensures Healthy(ss[|ss| - 1], meta, bytes)
    ensures Committed(ss[0], meta.bundle) ==>
              && Committed(ss[|ss| - 1], meta.bundle)
              && ss[|ss| - 1].sessions[(AGENT, meta.bundle)] == ss[0].sessions[(AGENT, meta.bundle)]
    decreases |ss|
  {
    hide Healthy, Drifts, Acceptable;
    if |ss| > 1 {
      var init := ss[..|ss| - 1];
      DriftsKeep(init, meta, bytes);
      assert init[|init| - 1] == ss[|init| - 1];
      assert Drifts(ss[|init| - 1], ss[|init|], meta, bytes);
      DriftKeeps(ss[|init| - 1], ss[|init|], meta, bytes);
    }
  }

  /** Attempts with such runs between them. */
  ghost predicate DriftChain(attempts: seq<Attempt>, gaps: seq<seq<Server>>, meta: Meta, bytes: Bytes) {
    && Acceptable(meta, bytes) && |gaps| == |attempts|
    && (forall i :: 0 <= i < |attempts| ==> IsAttempt(attempts[i], meta, bytes))
    && (forall i :: 0 <= i < |gaps| ==>
          gaps[i] != [] && DriftsAll(gaps[i], meta, bytes) && gaps[i][|gaps[i]| - 1] == attempts[i].before)
    && (forall i, j :: 0 <= i < |attempts| && 0 <= j < |attempts| && j == i + 1 ==> gaps[j][0] == attempts[i].after)
  }

  lemma AttemptEndsHealthy(a: Attempt, meta: Meta, bytes: Bytes)
    requires IsAttempt(a, meta, bytes)
    ensures Healthy(a.after, meta, bytes)
  {
    hide Stands, Attempted;
    var v, v' :| AttemptBy(a, meta, bytes, v, v');
  }

  /** Progress despite requests that the client gave up on and that are handled between two attempts. */
  lemma {:induction false} CommittedDespiteLateRequests(attempts: seq<Attempt>, gaps: seq<seq<Server>>, meta: Meta,
                                                        bytes: Bytes)
    requires DriftChain(attempts, gaps, meta, bytes) && |attempts| > TotalLosses(attempts)
    ensures Committed(attempts[|attempts| - 1].after, meta.bundle)
    ensures attempts[|attempts| - 1].after.sessions[(AGENT, meta.bundle)].blob == bytes
    decreases |attempts|
  {
    hide IsAttempt, DriftsAll, Acceptable, LossesIn;
    var n := |attempts| - 1;
    var last := attempts[n];
    AttemptEffect(last, meta, bytes);
    if Losses(last) > 0 {
      var init := attempts[..n];
      assert forall i :: 0 <= i < n ==> init[i] == attempts[i] && gaps[..n][i] == gaps[i];
      CommittedDespiteLateRequests(init, gaps[..n], meta, bytes);
      assert init[n - 1] == attempts[n - 1] && gaps[n][0] == attempts[n - 1].after;
      AttemptEndsHealthy(attempts[n - 1], meta, bytes);
      DriftsKeep(gaps[n], meta, bytes);
    }
  }

  /** A bundle that is committed before an attempt is refused by it and by every later one, and stays as it is. */
  lemma {:induction false} CommittedIsNeverAccepted(attempts: seq<Attempt>, meta: Meta, bytes: Bytes, k: nat, i: nat)
    requires AttemptChain(attempts, meta, bytes) && k <= i < |attempts| && Committed(attempts[k].before, meta.bundle)
    ensures !attempts[i].accepted
    ensures Committed(attempts[i].before, meta.bundle) && Committed(attempts[i].after, meta.bundle)
    ensures attempts[i].after.sessions[(AGENT, meta.bundle)] == attempts[k].before.sessions[(AGENT, meta.bundle)]
  {
    hide IsAttempt;
    AttemptEffect(attempts[i], meta, bytes);
    if i > k {
      CommittedIsNeverAccepted(attempts, meta, bytes, k, i - 1);
      assert SameView(attempts[i - 1].after, attempts[i].before, meta.bundle);
      AttemptEffect(attempts[i], meta, bytes);
    }
  }

  /** Attempts that turn an uncommitted bundle into a committed one: there is one that does. */
  lemma {:induction false} CommitPoint(attempts: seq<Attempt>, meta: Meta, bytes: Bytes) returns (k: nat)
    requires AttemptChain(attempts, meta, bytes) && attempts != []
    requires !Committed(attempts[0].before, meta.bundle) && Committed(attempts[|attempts| - 1].after, meta.bundle)
    ensures k < |attempts| && !Committed(attempts[k].before, meta.bundle) && Committed(attempts[k].after, meta.bundle)
    ensures forall j :: 0 <= j < k ==> !Committed(attempts[j].after, meta.bundle)
  {
    hide IsAttempt;
    k := 0;
    while !Committed(attempts[k].after, meta.bundle)
      invariant k < |attempts| && !Committed(attempts[k].before, meta.bundle)
      invariant forall j :: 0 <= j < k ==> !Committed(attempts[j].after, meta.bundle)
      decreases |attempts| - k
    {
      assert k < |attempts| - 1 && SameView(attempts[k].after, attempts[k + 1].before, meta.bundle);
      k := k + 1;
    }
  }

  /**
   Of a bundle whose losses run out exactly one attempt commits it. No other attempt is accepted, and that
   one is accepted if and only if the server's reply to its last request arrived.
   */
  lemma AcceptedIffCommitWasAnswered(attempts: seq<Attempt>, meta: Meta, bytes: Bytes) returns (k: nat)
    requires AttemptChain(attempts, meta, bytes) && |attempts| > TotalLosses(attempts)
    requires !Committed(attempts[0].before, meta.bundle)
    ensures k < |attempts| && !Committed(attempts[k].before, meta.bundle) && Committed(attempts[k].after, meta.bundle)
    ensures forall i :: 0 <= i < |attempts| && attempts[i].accepted ==> i == k
    ensures attempts[k].accepted <==> Answered(attempts[k])
  {
    hide IsAttempt;
    CommittedOnceLossesRunOut(attempts, meta, bytes);
    k := CommitPoint(attempts, meta, bytes);
    AttemptEffect(attempts[k], meta, bytes);
    forall i: nat | i < |attempts| && i != k ensures !attempts[i].accepted {
      AttemptEffect(attempts[i], meta, bytes);
      if i > k {
        assert SameView(attempts[k].after, attempts[k + 1].before, meta.bundle);
        CommittedIsNeverAccepted(attempts, meta, bytes, k + 1, i);
      }
    }
  }
}
