/**
 The agent's on-disk queue: one zip and one JSON sidecar per bundle.

 Every file-system call may fail or be the last thing the process does. Which calls do is an input of
 each method, and its contract says exactly what the disk then holds and what is reported; `Halted`
 means that the process died.
 */
module BundleQueue {
  import opened Encoding
  import opened Wrappers
  import opened Ingest

  /** Times are milliseconds of the wall clock. */
  type Time = int

  datatype QueueState =
    | Pending
    | Uploading
    | Done(finishedAt: Time)
    | Failed(attempts: nat, retryAt: Time)

  /** The zip path of an entry is always `{bundle}.zip`, so it needs no field. */
  datatype Entry = Entry(meta: Meta, state: QueueState, enqueuedAt: Time)

  /** The contents of a JSON file; a torn file is one whose write was interrupted. */
  datatype Doc = Whole(entry: Entry) | Torn

  datatype Disk = Disk(
    zips: map<BundleId, Bytes>,
    sidecars: map<BundleId, Doc>,
    temps: map<(BundleId, nat), Doc>)

  /** How far an atomic sidecar write got. */
  datatype Cut = BeforeWrite | MidWrite | BeforeRename | Renamed

  datatype Io = Fine | Faulted | Crashed

  datatype WriteStep = Creating | Writing | Renaming

  /** The course of an atomic write: it completes, one of its steps fails, or the process dies. */
  datatype Write = Completes | Fails(step: WriteStep) | Dies(cut: Cut)

  function CutOf(w: Write): Cut {
    match w
    case Completes => Renamed
    case Fails(Creating) => BeforeWrite
    case Fails(Writing) => MidWrite
    case Fails(Renaming) => BeforeRename
    case Dies(cut) => cut
  }

  function IoOf(w: Write): Io {
    match w
    case Completes => Fine
    case Fails(_) => Faulted
    case Dies(_) => Crashed
  }

  /** The course of a removal; a process that dies may have removed the file or not. */
  datatype Removal = Removes | Refuses | DiesRemoving(after: bool)

  function Removed<T>(files: map<BundleId, T>, b: BundleId, removal: Removal): map<BundleId, T> {
    if removal.Removes? || removal == DiesRemoving(true) then files - {b} else files
  }

  /** The course of moving a zip: across devices a copy may stop after some bytes. */
  datatype Move = Moved | Stops(copied: Option<nat>, dies: bool)

  function AfterMove(zips: map<BundleId, Bytes>, b: BundleId, bytes: Bytes, move: Move): map<BundleId, Bytes> {
    match move
    case Moved => zips[b := bytes]
    case Stops(None, _) => zips
    case Stops(Some(copied), _) => zips[b := Written(bytes, copied)]
  }

  datatype QueueError = IoError | Serde | NotFound

  datatype Result<+T> = Ok(value: T) | Err(error: QueueError) | Halted

  function SaveSidecar(d: Disk, b: BundleId, nanos: nat, entry: Entry, cut: Cut): Disk {
    match cut
    case BeforeWrite => d
    case MidWrite => d.(temps := d.temps[(b, nanos) := Torn])
    case BeforeRename => d.(temps := d.temps[(b, nanos) := Whole(entry)])
    case Renamed => d.(temps := d.temps - {(b, nanos)}, sidecars := d.sidecars[b := Whole(entry)])
  }

  predicate Eligible(e: Entry, now: Time) {
    match e.state
    case Pending => true
    case Failed(_, retryAt) => retryAt <= now
    case _ => false
  }

  predicate OldestFirst(entries: seq<Entry>) {
    forall i, j :: 0 <= i < j < |entries| ==> entries[i].enqueuedAt <= entries[j].enqueuedAt
  }

  function InsertByAge(e: Entry, entries: seq<Entry>): (r: seq<Entry>)
    requires OldestFirst(entries)
    ensures OldestFirst(r) && forall x :: x in r <==> x == e || x in entries
  {
    if entries == [] || e.enqueuedAt <= entries[0].enqueuedAt then [e] + entries
    else
      var rest := InsertByAge(e, entries[1..]);
      assert forall x :: x in rest ==> entries[0].enqueuedAt <= x.enqueuedAt;
      [entries[0]] + rest
  }

  /** The stable sort by enqueue time. */
  function SortByAge(entries: seq<Entry>): (r: seq<Entry>)
    ensures OldestFirst(r) && forall x :: x in r <==> x in entries
  {
    if entries == [] then [] else InsertByAge(entries[0], SortByAge(entries[1..]))
  }

  /** The entries of one age, in order. */
  function OfAge(entries: seq<Entry>, t: Time): seq<Entry> {
    if entries == [] then []
    else (if entries[0].enqueuedAt == t then [entries[0]] else []) + OfAge(entries[1..], t)
  }

  lemma {:induction false} InsertIsStable(e: Entry, entries: seq<Entry>, t: Time)
    requires OldestFirst(entries)
    ensures OfAge(InsertByAge(e, entries), t) == (if e.enqueuedAt == t then [e] else []) + OfAge(entries, t)
  {
    var r := InsertByAge(e, entries);
    if entries == [] || e.enqueuedAt <= entries[0].enqueuedAt {
      OfAgeCons(e, entries, t);
    } else {
      var first, rest := entries[0], InsertByAge(e, entries[1..]);
      InsertIsStable(e, entries[1..], t);
      assert r == [first] + rest && entries == [first] + entries[1..];
      hide InsertByAge, OfAge, OldestFirst;
      OfAgeCons(first, rest, t);
      OfAgeCons(first, entries[1..], t);
    }
  }

  lemma OfAgeCons(e: Entry, entries: seq<Entry>, t: Time)
    ensures OfAge([e] + entries, t) == (if e.enqueuedAt == t then [e] else []) + OfAge(entries, t)
  {
    assert ([e] + entries)[1..] == entries;
  }

  /** Sorting keeps every entry as often as it was there, and entries of one age in their order. */
  lemma {:induction false} SortIsStable(entries: seq<Entry>, t: Time)
    ensures OfAge(SortByAge(entries), t) == OfAge(entries, t)
  {
    if entries != [] {
      SortIsStable(entries[1..], t);
      InsertIsStable(entries[0], SortByAge(entries[1..]), t);
    }
  }

  /** The state `mark_failed` writes over a previous state. */
  function FailedAfter(previous: QueueState, retryAt: Time): QueueState {
    Failed(if previous.Failed? then previous.attempts + 1 else 1, retryAt)
  }

  /** One sidecar write that recovery attempted. */
  datatype Recovery = Recovery(bundle: BundleId, nanos: nat, entry: Entry, cut: Cut)

  ghost function Recover(d: Disk, log: seq<Recovery>): Disk {
    if log == [] then d
    else
      var last := log[|log| - 1];
      SaveSidecar(Recover(d, log[..|log| - 1]), last.bundle, last.nanos, last.entry.(state := Pending), last.cut)
  }

  /** Each logged write replaced a sidecar that read as uploading at that moment. */
  ghost predicate RecoveryLegal(d: Disk, log: seq<Recovery>) {
    log != [] ==>
      var last := log[|log| - 1];
      var before := log[..|log| - 1];
      RecoveryLegal(d, before) && last.bundle in Recover(d, before).sidecars
      && Recover(d, before).sidecars[last.bundle] == Whole(last.entry) && last.entry.state == Uploading
  }

  /** Each sidecar names its own bundle, as the file name does. */
  ghost predicate Labelled(d: Disk) {
    forall b :: b in d.sidecars && d.sidecars[b].Whole? ==> d.sidecars[b].entry.meta.bundle == b
  }

  ghost predicate DistinctBundles(entries: seq<Entry>) {
    forall i, j :: 0 <= i < j < |entries| ==> entries[i].meta.bundle != entries[j].meta.bundle
  }

  lemma NothingRecovered(d: Disk)
    ensures RecoveryLegal(d, []) && Recover(d, []) == d
  {
  }

  lemma AllDistinct(entries: seq<Entry>)
    ensures DistinctBundles(entries) ==>
              forall i, j :: 0 <= i < j < |entries| ==> entries[i].meta.bundle != entries[j].meta.bundle
  {
  }

  /** Whatever point recovery was cut short at, it has only flipped uploading entries to pending. */
  lemma {:induction false} RecoverOnlyFlips(d: Disk, log: seq<Recovery>)
    requires RecoveryLegal(d, log)
    ensures Recover(d, log).zips == d.zips && Recover(d, log).sidecars.Keys == d.sidecars.Keys
    ensures forall b :: b in d.sidecars ==>
              Recover(d, log).sidecars[b] == d.sidecars[b]
              || (d.sidecars[b].Whole? && d.sidecars[b].entry.state == Uploading
                  && Recover(d, log).sidecars[b] == Whole(d.sidecars[b].entry.(state := Pending)))
  {
    if log != [] {
      RecoverOnlyFlips(d, log[..|log| - 1]);
    }
  }

  /** What reading a sidecar yields. */
  function ReadEntry(sidecars: map<BundleId, Doc>, b: BundleId, io: Io): Result<Entry> {
    if io == Crashed then Halted
    else if b !in sidecars then Err(NotFound)
    else if io == Faulted then Err(IoError)
    else match sidecars[b]
      case Torn => Err(Serde)
      case Whole(e) => Ok(e)
  }

  function Report(io: Io): Result<()> {
    match io
    case Fine => Ok(())
    case Faulted => Err(IoError)
    case Crashed => Halted
  }

  /** Reading a sidecar, replacing its state and writing it back: the disk, and what is reported. */
  function Transitioned(d: Disk, b: BundleId, nanos: nat, next: Entry -> QueueState, read: Io, w: Write)
    : (Disk, Result<()>)
  {
    match ReadEntry(d.sidecars, b, read)
    case Ok(e) => (SaveSidecar(d, b, nanos, e.(state := next(e)), CutOf(w)), Report(IoOf(w)))
    case Err(error) => (d, Err(error))
    case Halted => (d, Halted)
  }

  /** The sidecar can be read and parsed. */
  predicate Readable(sidecars: map<BundleId, Doc>, unreadable: set<BundleId>, b: BundleId) {
    b in sidecars && b !in unreadable && sidecars[b].Whole?
  }

  /** Exactly the entries of the readable sidecars. */
  ghost predicate Lists(sidecars: map<BundleId, Doc>, unreadable: set<BundleId>, entries: seq<Entry>) {
    && (forall e :: e in entries ==> exists b :: Readable(sidecars, unreadable, b) && sidecars[b].entry == e)
    && (forall b :: Readable(sidecars, unreadable, b) ==> sidecars[b].entry in entries)
  }

  /** The oldest readable entry that is eligible, or none when no readable entry is. */
  ghost predicate IsNext(sidecars: map<BundleId, Doc>, unreadable: set<BundleId>, now: Time, r: Option<Entry>) {
    match r
    case Some(e) =>
      && Eligible(e, now) && (exists b :: Readable(sidecars, unreadable, b) && sidecars[b].entry == e)
      && forall b :: Readable(sidecars, unreadable, b) && Eligible(sidecars[b].entry, now) ==>
           e.enqueuedAt <= sidecars[b].entry.enqueuedAt
    case None => forall b :: Readable(sidecars, unreadable, b) ==> !Eligible(sidecars[b].entry, now)
  }

  class Queue {
    var zips: map<BundleId, Bytes>
    var sidecars: map<BundleId, Doc>
    var temps: map<(BundleId, nat), Doc>

    function OnDisk(): Disk
      reads this
    {
      Disk(zips, sidecars, temps)
    }

    constructor ()
      ensures OnDisk() == Disk(map[], map[], map[])
    {
      zips, sidecars, temps := map[], map[], map[];
    }

    /** Writes a temporary file and renames it over the sidecar. */
    method WriteSidecar(b: BundleId, nanos: nat, entry: Entry, w: Write) returns (io: Io)
      modifies this`sidecars, this`temps
      ensures OnDisk() == SaveSidecar(old(OnDisk()), b, nanos, entry, CutOf(w)) && io == IoOf(w)
      ensures io == Fine ==> sidecars == old(sidecars)[b := Whole(entry)] && temps == old(temps) - {(b, nanos)}
    {
      if w == Fails(Creating) { return Faulted; }
      if w == Dies(BeforeWrite) { return Crashed; }
      temps := temps[(b, nanos) := Torn];
      if w == Fails(Writing) { return Faulted; }
      if w == Dies(MidWrite) { return Crashed; }
      temps := temps[(b, nanos) := Whole(entry)];
      assert OnDisk() == SaveSidecar(old(OnDisk()), b, nanos, entry, BeforeRename);
      if w == Fails(Renaming) { return Faulted; }
      if w == Dies(BeforeRename) { return Crashed; }
      sidecars, temps := sidecars[b := Whole(entry)], temps - {(b, nanos)};
      assert temps == old(temps) - {(b, nanos)};
      io := if w == Dies(Renamed) then Crashed else Fine;
    }

    method Get(b: BundleId, io: Io) returns (r: Result<Entry>)
      ensures r == ReadEntry(sidecars, b, io)
      ensures r.Ok? <==> io == Fine && b in sidecars && sidecars[b].Whole?
      ensures r.Ok? ==> sidecars[b] == Whole(r.value)
      ensures r == Err(NotFound) <==> b !in sidecars && io != Crashed
      ensures r == Err(Serde) <==> b in sidecars && sidecars[b] == Torn && io == Fine
      ensures r == Err(IoError) <==> b in sidecars && io == Faulted
      ensures r == Halted <==> io == Crashed
    {
      r := ReadEntry(sidecars, b, io);
    }

    /** Reads a sidecar, replaces its state and writes it back. */
    method Transition(b: BundleId, nanos: nat, next: Entry -> QueueState, read: Io, w: Write) returns (r: Result<()>)
      modifies this`sidecars, this`temps
      ensures (OnDisk(), r) == Transitioned(old(OnDisk()), b, nanos, next, read, w)
    {
      var entry := Get(b, read);
      match entry {
        case Halted => r := Halted;
        case Err(e) => r := Err(e);
        case Ok(e) =>
          var io := WriteSidecar(b, nanos, e.(state := next(e)), w);
          r := Report(io);
      }
    }

    method MarkUploading(b: BundleId, nanos: nat, read: Io, w: Write) returns (r: Result<()>)
      modifies this`sidecars, this`temps
      ensures (OnDisk(), r) == Transitioned(old(OnDisk()), b, nanos, (_: Entry) => Uploading, read, w)
    {
      r := Transition(b, nanos, (_: Entry) => Uploading, read, w);
    }

    method MarkDone(b: BundleId, nanos: nat, now: Time, read: Io, w: Write) returns (r: Result<()>)
      modifies this`sidecars, this`temps
      ensures (OnDisk(), r) == Transitioned(old(OnDisk()), b, nanos, (_: Entry) => Done(now), read, w)
    {
      r := Transition(b, nanos, (_: Entry) => Done(now), read, w);
    }

    method MarkFailed(b: BundleId, nanos: nat, now: Time, delay: nat, read: Io, w: Write) returns (r: Result<()>)
      modifies this`sidecars, this`temps
      ensures (OnDisk(), r)
           == Transitioned(old(OnDisk()), b, nanos, (e: Entry) => FailedAfter(e.state, now + delay), read, w)
      ensures r.Ok? ==> b in old(sidecars) && old(sidecars)[b].Whole?
      ensures r.Ok? ==>
                var e := old(sidecars)[b].entry;
                var attempts := if e.state.Failed? then e.state.attempts + 1 else 1;
                sidecars == old(sidecars)[b := Whole(e.(state := Failed(attempts, now + delay)))]
    {
      r := Transition(b, nanos, (e: Entry) => FailedAfter(e.state, now + delay), read, w);
    }

    /** Every sidecar that can be read and parsed, in directory order. */
    method LoadAll(dir: Io, unreadable: set<BundleId>) returns (r: Result<seq<Entry>>)
      ensures match dir
              case Crashed => r == Halted
              case Faulted => r == Err(IoError)
              case Fine => r.Ok? && Lists(sidecars, unreadable, r.value)
                           && (Labelled(OnDisk()) ==> DistinctBundles(r.value))
    {
      if dir == Crashed { return Halted; }
      if dir == Faulted { return Err(IoError); }
      var out: seq<Entry> := [];
      var todo := sidecars.Keys;
      while todo != {}
        invariant todo <= sidecars.Keys
        invariant forall e :: e in out ==> exists b :: Readable(sidecars, unreadable, b) && sidecars[b].entry == e
        invariant forall b :: Readable(sidecars, unreadable, b) && b !in todo ==> sidecars[b].entry in out
        invariant Labelled(OnDisk()) ==> DistinctBundles(out) && forall e :: e in out ==> e.meta.bundle !in todo
        decreases todo
      {
        var b :| b in todo;
        todo := todo - {b};
        if b !in unreadable && sidecars[b].Whole? {
          assert Readable(sidecars, unreadable, b);
          out := out + [sidecars[b].entry];
        }
      }
      r := Ok(out);
    }

    method FirstEligible(sorted: seq<Entry>, now: Time) returns (r: Option<Entry>)
      requires OldestFirst(sorted)
      ensures r.Some? ==> r.value in sorted && Eligible(r.value, now)
      ensures r.Some? ==> forall e :: e in sorted && Eligible(e, now) ==> r.value.enqueuedAt <= e.enqueuedAt
      ensures r.None? ==> forall e :: e in sorted ==> !Eligible(e, now)
    {
      for i := 0 to |sorted|
        invariant forall j :: 0 <= j < i ==> !Eligible(sorted[j], now)
      {
        if Eligible(sorted[i], now) {
          return Some(sorted[i]);
        }
      }
      r := None;
    }

    /** The oldest entry that is pending or whose retry time has come. */
    method NextPending(now: Time, dir: Io, unreadable: set<BundleId>) returns (r: Result<Option<Entry>>)
      ensures match dir
              case Crashed => r == Halted
              case Faulted => r == Err(IoError)
              case Fine => r.Ok? && IsNext(sidecars, unreadable, now, r.value)
    {
      var loaded := LoadAll(dir, unreadable);
      match loaded {
        case Halted => return Halted;
        case Err(e) => return Err(e);
        case Ok(entries) =>
          var first := FirstEligible(SortByAge(entries), now);
          return Ok(first);
      }
    }

    /** Moves the zip into the queue directory; a copy across devices may stop half way. */
    method MoveZip(b: BundleId, bytes: Bytes, move: Move) returns (io: Io)
      modifies this`zips
      ensures zips == AfterMove(old(zips), b, bytes, move)
      ensures zips == old(zips) || (b in zips && zips == old(zips)[b := zips[b]] && zips[b] <= bytes)
      ensures io == Fine ==> b in zips && zips[b] == bytes
      ensures io == if move == Moved then Fine else if move.dies then Crashed else Faulted
    {
      zips := AfterMove(zips, b, bytes, move);
      io := if move == Moved then Fine else if move.dies then Crashed else Faulted;
    }

    /** Takes a bundle in: the zip first, then its sidecar. */
    method Enqueue(meta: Meta, bytes: Bytes, nanos: nat, now: Time, move: Move, w: Write) returns (r: Result<()>)
      modifies this
      ensures var d := old(OnDisk()).(zips := AfterMove(old(zips), meta.bundle, bytes, move));
              OnDisk() == if move != Moved then d
                          else SaveSidecar(d, meta.bundle, nanos, Entry(meta, Pending, now), CutOf(w))
      ensures r == Report(if move == Moved then IoOf(w) else if move.dies then Crashed else Faulted)
    {
      var io := MoveZip(meta.bundle, bytes, move);
      if io == Fine {
        io := WriteSidecar(meta.bundle, nanos, Entry(meta, Pending, now), w);
      }
      r := Report(io);
    }

    /** Deletes the zip of an uploaded bundle. */
    method RemoveZip(b: BundleId, removal: Removal) returns (io: Io)
      modifies this`zips
      ensures zips == Removed(old(zips), b, removal)
      ensures io == if removal == Removes then Fine else if removal == Refuses then Faulted else Crashed
    {
      match removal
      case Removes =>
        zips := zips - {b};
        io := Fine;
      case Refuses => io := Faulted;
      case DiesRemoving(after) =>
        if after {
          zips := zips - {b};
        }
        io := Crashed;
    }

    /** Removes the sidecar before the zip, so that a sidecar never outlives its zip. */
    method Purge(b: BundleId, first: Removal, second: Removal) returns (io: Io)
      modifies this`zips, this`sidecars
      ensures sidecars == Removed(old(sidecars), b, first)
      ensures zips == if b in sidecars || (b in old(sidecars) && first != Removes) then old(zips)
                      else Removed(old(zips), b, second)
      ensures io == Fine ==> b !in sidecars && b !in zips
      ensures first == Removes && second == Removes ==> io == Fine
    {
      if b in sidecars {
        sidecars := Removed(sidecars, b, first);
        if first == Refuses { return Faulted; }
        if first.DiesRemoving? { return Crashed; }
      } else {
        assert Removed(sidecars, b, first) == sidecars;
      }
      if b in zips {
        zips := Removed(zips, b, second);
        if second == Refuses { return Faulted; }
        if second.DiesRemoving? { return Crashed; }
      } else {
        assert Removed(zips, b, second) == zips;
      }
      io := Fine;
    }

    /** Flips one stuck entry and adds that to the log of the recovery. */
    method FlipOne(e: Entry, nanos: nat, read: Io, w: Write, ghost start: Disk, ghost log: seq<Recovery>)
      returns (r: Result<()>, ghost log': seq<Recovery>)
      requires Labelled(OnDisk()) && RecoveryLegal(start, log) && OnDisk() == Recover(start, log)
      requires e.meta.bundle in sidecars && sidecars[e.meta.bundle] == Whole(e) && e.state == Uploading
      modifies this`sidecars, this`temps
      ensures Labelled(OnDisk()) && RecoveryLegal(start, log') && OnDisk() == Recover(start, log')
      ensures sidecars == old(sidecars) || sidecars == old(sidecars)[e.meta.bundle := Whole(e.(state := Pending))]
      ensures r.Ok? ==> e.meta.bundle in sidecars && sidecars[e.meta.bundle] == Whole(e.(state := Pending))
      ensures (read, w) == (Fine, Completes) ==> r.Ok?
    {
      r := Transition(e.meta.bundle, nanos, (_: Entry) => Pending, read, w);
      log' := log;
      if read == Fine {
        ghost var step := Recovery(e.meta.bundle, nanos, e, CutOf(w));
        assert (log + [step])[..|log|] == log;
        log' := log + [step];
      }
    }

    /** Flips every sidecar that a crash left as uploading back to pending; `course` says how the i-th write goes. */
    method Open(nanos: nat, dir: Io, unreadable: set<BundleId>, course: nat -> (Io, Write))
      returns (r: Result<()>, ghost log: seq<Recovery>)
      requires Labelled(OnDisk())
      modifies this`sidecars, this`temps
      ensures RecoveryLegal(old(OnDisk()), log) && OnDisk() == Recover(old(OnDisk()), log)
      ensures r.Ok? ==> forall b :: Readable(sidecars, unreadable, b) ==> sidecars[b].entry.state != Uploading
      ensures dir == Fine && (forall i :: course(i) == (Fine, Completes)) ==> r.Ok?
      ensures dir == Faulted ==> r == Err(IoError)
      ensures dir == Crashed ==> r == Halted
      ensures dir != Fine ==> OnDisk() == old(OnDisk())
    {
      hide Recover, RecoveryLegal, DistinctBundles;
      log := [];
      NothingRecovered(OnDisk());
      var loaded := LoadAll(dir, unreadable);
      match loaded {
        case Halted => return Halted, log;
        case Err(e) => return Err(e), log;
        case Ok(entries) =>
          forall e | e in entries
            ensures e.meta.bundle in sidecars && sidecars[e.meta.bundle] == Whole(e)
          {
            var b :| Readable(sidecars, unreadable, b) && sidecars[b].entry == e;
          }
          AllDistinct(entries);
          var i := 0;
          while i < |entries|
            invariant 0 <= i <= |entries|
            invariant RecoveryLegal(old(OnDisk()), log) && OnDisk() == Recover(old(OnDisk()), log)
            invariant Labelled(OnDisk())
            invariant forall j :: i <= j < |entries| ==>
                        entries[j].meta.bundle in sidecars && sidecars[entries[j].meta.bundle] == Whole(entries[j])
            invariant forall b :: Readable(sidecars, unreadable, b) ==>
                        sidecars[b].entry.state != Uploading || sidecars[b].entry in entries[i..]
          {
            var e := entries[i];
            assert entries[i..] == [e] + entries[i + 1..];
            if e.state == Uploading {
              var (read, w) := course(i);
              var done;
              done, log := FlipOne(e, nanos + i, read, w, old(OnDisk()), log);
              match done {
                case Halted => return Halted, log;
                case Err(error) => return Err(error), log;
                case Ok(_) =>
              }
            }
            i := i + 1;
          }
          r := Ok(());
      }
    }
  }
}
