/**
 What the network does to the uploader, and what becomes of an upload under it: the exact outcome of a
 retried request, of the chunk loop and of a whole attempt as functions of the fates of the exchanges alone.
 */
module Fates {
  import opened Wrappers
  import opened Ingest
  import opened Network

  const DEFAULT_CHUNK_SIZE: u64 := 4 * 1024 * 1024

  predicate TransientStatus(status: nat) {
    500 <= status < 600 || status == REQUEST_TIMEOUT || status == TOO_MANY_REQUESTS
  }

  datatype UploadError =
    | NetworkError
    | Decode
    | ReadError
    | Fatal(status: nat)
    | Transient(status: nat)
    | Exhausted
    | SizeDrift(expected: nat, actual: nat)
    | OffsetMismatch(expected: nat, got: nat)

  predicate IsTransient(e: UploadError) {
    e.NetworkError? || e.Transient?
  }

  function StatusError(status: nat): UploadError {
    if TransientStatus(status) then Transient(status) else Fatal(status)
  }

  datatype Outcome<+T> = Ok(value: T) | Err(error: UploadError) | Halted

  /** An outcome without its value. */
  function Plain<T>(r: Outcome<T>): Outcome<()> {
    match r
    case Ok(_) => Ok(())
    case Err(e) => Err(e)
    case Halted => Halted
  }

  /** What becomes of the reply of a request that was handled; of a garbled one only the status can be read. */
  datatype Hearing = Arrives | ReplyLost | Garbled | DiesHearing

  /**
   What becomes of one request. Events in `gaps` run between the stages of its handler; `keep` says
   that the best-effort removal of the staging file failed.
   */
  datatype Course =
    | RequestLost
    | DiesSending
    | Intercepted(status: nat)
    | Handled(gaps: seq<seq<NetEvent>>, keep: bool, hearing: Hearing)

  /** One exchange: what runs before the request is handled, and what becomes of it. */
  datatype Fate = Fate(beside: seq<NetEvent>, course: Course)

  /** The fates of all exchanges to come. */
  type World = nat -> Fate

  /** Anything but a handled request whose reply arrives is a loss. */
  predicate Lossy(fate: Fate) {
    !(fate.course.Handled? && fate.course.hearing.Arrives?)
  }

  /** The process stops in this exchange. */
  predicate Dies(fate: Fate) {
    fate.course.DiesSending? || (fate.course.Handled? && fate.course.hearing.DiesHearing?)
  }

  /** The process stopped in the last of these exchanges. */
  predicate DiesAt(world: World, at: nat, next: nat) {
    next > at && Dies(world(next - 1))
  }

  function LossesIn(world: World, at: nat, next: nat): nat {
    if next <= at then 0 else LossesIn(world, at, next - 1) + if Lossy(world(next - 1)) then 1 else 0
  }

  lemma {:induction false} LossesAdd(world: World, at: nat, mid: nat, next: nat)
    requires at <= mid <= next
    ensures LossesIn(world, at, next) == LossesIn(world, at, mid) + LossesIn(world, mid, next)
    decreases next
  {
    if mid < next {
      LossesAdd(world, at, mid, next - 1);
    }
  }

  lemma {:induction false} ALossCounts(world: World, at: nat, next: nat, k: nat)
    requires at <= k < next && Lossy(world(k))
    ensures LossesIn(world, at, next) > 0
    decreases next
  {
    if k < next - 1 {
      ALossCounts(world, at, next - 1, k);
    }
  }

  // ---------------------------------------------------------------------------------------------
  // One retried request
  // ---------------------------------------------------------------------------------------------

  /** The client will ask again, whatever the server made of the request. */
  predicate Retriable(fate: Fate) {
    match fate.course
    case RequestLost => true
    case Intercepted(status) => TransientStatus(status)
    case Handled(_, _, hearing) => hearing.ReplyLost?
    case DiesSending => false
  }

  /** Where a request that starts at exchange `at` is over, given that many attempts. */
  function Ends(world: World, at: nat, attempts: nat): (next: nat)
    ensures at <= next <= at + attempts && (attempts > 0 ==> next > at)
    decreases attempts
  {
    if attempts == 0 then at else if Retriable(world(at)) then Ends(world, at + 1, attempts - 1) else at + 1
  }

  /** One of these exchanges reached the server. */
  predicate HandledIn(world: World, at: nat, next: nat) {
    next > at && (HandledIn(world, at, next - 1) || world(next - 1).course.Handled?)
  }

  /** One of these exchanges but the last did. */
  predicate HandledBefore(world: World, at: nat, next: nat) {
    next > at && HandledIn(world, at, next - 1)
  }

  /** What the client makes of an exchange whose handler refuses with the given status or, without one, grants. */
  function EndOf(fate: Fate, refusal: Option<nat>): Outcome<()> {
    match fate.course
    case RequestLost => Err(NetworkError)
    case DiesSending => Halted
    case Intercepted(status) => Err(StatusError(status))
    case Handled(_, _, ReplyLost) => Err(NetworkError)
    case Handled(_, _, DiesHearing) => Halted
    case Handled(_, _, hearing) =>
      if refusal.Some? then Err(StatusError(refusal.value)) else if hearing.Garbled? then Err(Decode) else Ok(())
  }

  /** How a retried request ends whose last handler refuses or grants as said. */
  function Told(world: World, at: nat, next: nat, refusal: Option<nat>): Outcome<()> {
    if next <= at then Err(Exhausted) else EndOf(world(next - 1), refusal)
  }

  /** Success means that the last reply arrived, and failure for want of a refusal means a loss. */
  lemma ToldOk(world: World, at: nat, next: nat, refusal: Option<nat>)
    ensures Told(world, at, next, refusal).Ok? <==> next > at && refusal.None? && !Lossy(world(next - 1))
    ensures Told(world, at, next, refusal).Ok? ==> HandledIn(world, at, next)
    ensures next > at && !Told(world, at, next, None).Ok? ==> LossesIn(world, at, next) > 0
  {
    if next > at && Lossy(world(next - 1)) {
      ALossCounts(world, at, next, next - 1);
    }
  }

  /** A request that was handled before its last exchange had a reply lost. */
  lemma {:induction false} UnheardIsALoss(world: World, at: nat, attempts: nat)
    ensures var next := Ends(world, at, attempts);
            HandledBefore(world, at, next) ==> LossesIn(world, at, next) > 0
    decreases attempts
  {
    var next := Ends(world, at, attempts);
    if next > at + 1 {
      ALossCounts(world, at, next, at);
    }
  }

  // ---------------------------------------------------------------------------------------------
  // One attempt
  // ---------------------------------------------------------------------------------------------

  /** How far the server has a bundle. */
  datatype Reached = Nowhere | Staged(offset: nat) | Stored

  /** Where a part of an attempt ends, how far the bundle has come then, and what the client is told. */
  datatype Passage = Passage(next: nat, reached: Reached, end: Outcome<()>)

  /**
   The chunk loop. A chunk is refused when an earlier try of it was handled and its reply lost; it is in place
   as soon as one try of it was handled.
   */
  function Chunks(world: World, at: nat, attempts: nat, offset: nat, size: nat): (p: Passage)
    ensures p.next >= at && p.reached.Staged? && p.reached.offset >= offset
    ensures p.end.Ok? && offset <= size ==> p.reached.offset == size
    decreases size - offset
  {
    if offset >= size then Passage(at, Staged(offset), Ok(()))
    else
      var end := if offset + DEFAULT_CHUNK_SIZE < size then offset + DEFAULT_CHUNK_SIZE else size;
      var next := Ends(world, at, attempts);
      var told := Told(world, at, next, if HandledBefore(world, at, next) then Some(CONFLICT) else None);
      if told.Ok? then Chunks(world, next, attempts, end, size)
      else Passage(next, Staged(if HandledIn(world, at, next) then end else offset), told)
  }

  /** What follows a granted init. For a stored bundle finalize finds no upload. */
  function Rest(world: World, at: nat, attempts: nat, from: Reached, size: nat): (p: Passage)
    ensures p.next >= at
  {
    match from
    case Staged(offset) =>
      var sent := Chunks(world, at, attempts, offset, size);
      if !sent.end.Ok? then sent
      else
        var next := Ends(world, sent.next, attempts);
        Passage(next, if HandledIn(world, sent.next, next) then Stored else sent.reached,
                Told(world, sent.next, next, None))
    case _ =>
      var next := Ends(world, at, attempts);
      Passage(next, from, Told(world, at, next, Some(NOT_FOUND)))
  }

  /** Where init leaves the bundle: it opens an upload for an unknown one as soon as one try was handled. */
  function Opened(world: World, at: nat, next: nat, from: Reached): Reached {
    if from.Nowhere? && HandledIn(world, at, next) then Staged(0) else from
  }

  /** A whole attempt for a bundle of the given size whose file can be read or not. */
  function Attempted(world: World, at: nat, attempts: nat, from: Reached, size: nat, readable: bool): (p: Passage)
    ensures p.next >= at && (attempts > 0 ==> p.next > at)
  {
    var next := Ends(world, at, attempts);
    var told := Told(world, at, next, None);
    var begun := Opened(world, at, next, from);
    if !told.Ok? then Passage(next, begun, told)
    else if !readable then Passage(next, begun, Err(ReadError))
    else Rest(world, next, attempts, begun, size)
  }

  lemma {:induction false} FailedChunksLose(world: World, at: nat, attempts: nat, offset: nat, size: nat)
    requires attempts > 0
    ensures var p := Chunks(world, at, attempts, offset, size); !p.end.Ok? ==> LossesIn(world, at, p.next) > 0
    decreases size - offset
  {
    if offset < size {
      var end := if offset + DEFAULT_CHUNK_SIZE < size then offset + DEFAULT_CHUNK_SIZE else size;
      var next := Ends(world, at, attempts);
      var refusal := if HandledBefore(world, at, next) then Some(CONFLICT) else None;
      ToldOk(world, at, next, refusal);
      UnheardIsALoss(world, at, attempts);
      if Told(world, at, next, refusal).Ok? {
        FailedChunksLose(world, next, attempts, end, size);
        LossesAdd(world, at, next, Chunks(world, at, attempts, offset, size).next);
      }
    }
  }

  lemma RestLoses(world: World, at: nat, attempts: nat, from: Reached, size: nat)
    requires attempts > 0 && from.Staged?
    ensures var p := Rest(world, at, attempts, from, size);
            && (!p.end.Ok? ==> LossesIn(world, at, p.next) > 0)
            && (p.end.Ok? ==> p.reached.Stored?)
            && (p.reached.Stored? ==> (p.end.Ok? <==> !Lossy(world(p.next - 1))))
  {
    var sent := Chunks(world, at, attempts, from.offset, size);
    FailedChunksLose(world, at, attempts, from.offset, size);
    if sent.end.Ok? {
      var next := Ends(world, sent.next, attempts);
      ToldOk(world, sent.next, next, None);
      LossesAdd(world, at, sent.next, next);
    }
  }

  /**
   What the fates decide of an attempt. A stored bundle is refused and stays stored. Any other is accepted
   unless an exchange was lost or its file could not be read; it is accepted only if it is stored then, and
   if the attempt stores it, it is accepted if and only if the reply to the last exchange arrived.
   */
  lemma AttemptDecided(world: World, at: nat, attempts: nat, from: Reached, size: nat, readable: bool)
    requires attempts > 0
    ensures var p := Attempted(world, at, attempts, from, size, readable);
            && (from.Stored? ==> p.reached.Stored? && !p.end.Ok?)
            && (!from.Stored? && !p.end.Ok? ==> LossesIn(world, at, p.next) > 0 || !readable)
            && (p.end.Ok? ==> p.reached.Stored? && readable)
            && (!from.Stored? && p.reached.Stored? ==> (p.end.Ok? <==> !Lossy(world(p.next - 1))))
  {
    var next := Ends(world, at, attempts);
    ToldOk(world, at, next, None);
    var begun := Opened(world, at, next, from);
    if Told(world, at, next, None).Ok? && readable {
      var p := Rest(world, next, attempts, begun, size);
      LossesAdd(world, at, next, p.next);
      if begun.Staged? {
        RestLoses(world, next, attempts, begun, size);
      }
    }
  }
}
