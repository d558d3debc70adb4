/**
 The whole agent against the server: the disk of the queue together with the network, as one
 step system. A process may stop after any event, so every reachable state is a crash state.
 */
module Delivery {
  import opened Encoding
  import opened Wrappers
  import opened Ingest
  import opened Network
  import opened View
  import opened BundleQueue

  datatype System = System(reg: Registry, disk: Disk, net: Net)

  const START := System(map[], Disk(map[], map[], map[]), EMPTY_NET)

  datatype Event =
    | Wire(e: NetEvent)
    | TakeZip(meta: Meta, bytes: Bytes)
    | TearZip(b: BundleId, bytes: Bytes, copied: nat)
    | WriteEntry(b: BundleId, nanos: nat, now: Time, cut: Cut)
    | Change(b: BundleId, nanos: nat, state: QueueState, cut: Cut)
    | DropSidecar(b: BundleId)
    | DropZip(b: BundleId)

  /** The transitions the agent makes, and what each of them has to wait for. */
  ghost predicate MayChange(net: Net, e: Entry, state: QueueState) {
    match state
    case Pending => e.state == Uploading
    case Uploading => e.state.Pending? || e.state.Failed?
    case Done(_) => e.state == Uploading && Acknowledged(net, e.meta)
    case Failed(_, _) => e.state == Uploading
  }

  ghost predicate Enabled(s: System, e: Event) {
    match e
    case Wire(ne) => NetEnabled(s.reg, s.net, ne)
    case TakeZip(meta, bytes) => meta.bundle !in s.reg && Describes(meta, meta.bundle, bytes)
    case TearZip(b, _, _) => b !in s.reg
    case WriteEntry(b, _, _, _) =>
      b in s.reg && b !in s.disk.sidecars && b in s.disk.zips && s.disk.zips[b] == s.reg[b].bytes
    case Change(b, _, state, _) =>
      b in s.disk.sidecars && s.disk.sidecars[b].Whole? && MayChange(s.net, s.disk.sidecars[b].entry, state)
    case DropSidecar(b) => true
    case DropZip(b) =>
      b !in s.disk.sidecars || (s.disk.sidecars[b].Whole? && s.disk.sidecars[b].entry.state.Done?)
  }

  ghost function Next(s: System, e: Event): System
    requires Enabled(s, e)
  {
    match e
    case Wire(ne) => s.(net := NetNext(s.reg, s.net, ne))
    case TakeZip(meta, bytes) =>
      s.(reg := s.reg[meta.bundle := Bundle(meta, bytes)],
         disk := s.disk.(zips := s.disk.zips[meta.bundle := bytes]))
    case TearZip(b, bytes, copied) => s.(disk := s.disk.(zips := s.disk.zips[b := Written(bytes, copied)]))
    case WriteEntry(b, nanos, now, cut) =>
      s.(disk := SaveSidecar(s.disk, b, nanos, Entry(s.reg[b].meta, Pending, now), cut))
    case Change(b, nanos, state, cut) =>
      s.(disk := SaveSidecar(s.disk, b, nanos, s.disk.sidecars[b].entry.(state := state), cut))
    case DropSidecar(b) => s.(disk := s.disk.(sidecars := s.disk.sidecars - {b}))
    case DropZip(b) => s.(disk := s.disk.(zips := s.disk.zips - {b}))
  }

  ghost predicate Legal(s: System, es: seq<Event>)
    decreases |es|
  {
    es != [] ==> Enabled(s, es[0]) && Legal(Next(s, es[0]), es[1..])
  }

  ghost function Exec(s: System, es: seq<Event>): System
    requires Legal(s, es)
    decreases |es|
  {
    if es == [] then s else Exec(Next(s, es[0]), es[1..])
  }

  lemma {:induction false} Compose(s: System, es: seq<Event>, fs: seq<Event>)
    requires Legal(s, es) && Legal(Exec(s, es), fs)
    ensures Legal(s, es + fs) && Exec(s, es + fs) == Exec(Exec(s, es), fs)
    decreases |es|
  {
    hide Enabled, Next;
    if es == [] {
      assert es + fs == fs;
    } else {
      assert (es + fs)[0] == es[0] && (es + fs)[1..] == es[1..] + fs;
      Compose(Next(s, es[0]), es[1..], fs);
    }
  }

  /** A run of the network alone is a run of the system. */
  ghost function Wires(es: seq<NetEvent>): seq<Event> {
    seq(|es|, i requires 0 <= i < |es| => Wire(es[i]))
  }

  lemma {:induction false} WiresRun(s: System, es: seq<NetEvent>)
    requires NetLegal(s.reg, s.net, es)
    ensures Legal(s, Wires(es)) && Exec(s, Wires(es)) == s.(net := NetExec(s.reg, s.net, es))
    decreases |es|
  {
    if es != [] {
      assert Wires(es)[1..] == Wires(es[1..]);
      WiresRun(Next(s, Wire(es[0])), es[1..]);
    }
  }

  /** No sidecar is removed. Nothing the agent does removes one; only the queue's unused `purge` does. */
  predicate PurgeFree(es: seq<Event>) {
    forall i :: 0 <= i < |es| ==> !es[i].DropSidecar?
  }

  ghost predicate IsSystemRun(s: System, s': System, es: seq<Event>) {
    Legal(s, es) && Exec(s, es) == s' && PurgeFree(es)
  }

  /** Some run of events without a purge takes one state of the system to the other. */
  ghost predicate Reaches(s: System, s': System) {
    exists es :: IsSystemRun(s, s', es)
  }

  lemma ReachesSelf(s: System)
    ensures Reaches(s, s)
  {
    assert IsSystemRun(s, s, []);
  }

  lemma ExecOne(s: System, e: Event)
    requires Enabled(s, e)
    ensures Legal(s, [e]) && Exec(s, [e]) == Next(s, e)
  {
    assert [e][1..] == [];
  }

  lemma ReachesNext(s: System, e: Event)
    requires Enabled(s, e) && !e.DropSidecar?
    ensures Reaches(s, Next(s, e))
  {
    ExecOne(s, e);
    assert IsSystemRun(s, Next(s, e), [e]);
  }

  lemma ReachesOn(a: System, b: System, c: System)
    requires Reaches(a, b) && Reaches(b, c)
    ensures Reaches(a, c)
  {
    var es :| IsSystemRun(a, b, es);
    var fs :| IsSystemRun(b, c, fs);
    Compose(a, es, fs);
    assert IsSystemRun(a, c, es + fs);
  }

  lemma ReachesByWire(s: System, net: Net)
    requires Leads(s.reg, s.net, net)
    ensures Reaches(s, s.(net := net))
  {
    var es :| IsRun(s.reg, s.net, net, es);
    WiresRun(s, es);
    assert IsSystemRun(s, s.(net := net), Wires(es));
  }

  lemma {:induction false} ReachesByRecovery(s: System, log: seq<Recovery>)
    requires RecoveryLegal(s.disk, log)
    ensures Reaches(s, s.(disk := Recover(s.disk, log)))
  {
    if log == [] {
      ReachesSelf(s);
    } else {
      var before := log[..|log| - 1];
      var last := log[|log| - 1];
      ReachesByRecovery(s, before);
      var mid := s.(disk := Recover(s.disk, before));
      ReachesNext(mid, Change(last.bundle, last.nanos, Pending, last.cut));
      ReachesOn(s, mid, s.(disk := Recover(s.disk, log)));
    }
  }

  lemma ReachableKeepsInv(s: System, s': System)
    requires Inv(s) && Reaches(s, s')
    ensures Inv(s')
  {
    var es :| IsSystemRun(s, s', es);
    RunKeepsInv(s, es);
  }

  // ---------------------------------------------------------------------------------------------
  // The invariant
  // ---------------------------------------------------------------------------------------------

  /** A sidecar is complete, describes a bundle that was taken in, and has its zip unless it is done. */
  ghost predicate SidecarOk(reg: Registry, disk: Disk, b: BundleId)
    requires b in disk.sidecars
  {
    && disk.sidecars[b].Whole?
    && b in reg && disk.sidecars[b].entry.meta == reg[b].meta
    && (!disk.sidecars[b].entry.state.Done? ==> b in disk.zips && disk.zips[b] == reg[b].bytes)
  }

  ghost predicate DoneIsCommitted(s: System) {
    forall b :: b in s.disk.sidecars && s.disk.sidecars[b].Whole? && s.disk.sidecars[b].entry.state.Done? ==>
      Committed(s.net.server, b)
  }

  ghost predicate Inv(s: System) {
    && NetInv(s.reg, s.net)
    && (forall b :: b in s.disk.sidecars ==> SidecarOk(s.reg, s.disk, b))
    && DoneIsCommitted(s)
  }

  lemma WireKeepsInv(s: System, e: NetEvent)
    requires Inv(s) && NetEnabled(s.reg, s.net, e)
    ensures Inv(Next(s, Wire(e)))
  {
    NetNextKeepsInv(s.reg, s.net, e);
    match e
    case Receive(device, req) => BeginGrows(s.net.server, device, req);
    case Advance(h, keep) => ResumeGrows(s.net.server, h.task, keep);
    case Die(h, wrote) => DieGrows(s.net.server, h.task, wrote);
    case Send(_, _) =>
  }

  lemma ChangeKeepsInv(s: System, b: BundleId, nanos: nat, state: QueueState, cut: Cut)
    requires Inv(s) && Enabled(s, Change(b, nanos, state, cut))
    ensures Inv(Next(s, Change(b, nanos, state, cut)))
  {
    var s' := Next(s, Change(b, nanos, state, cut));
    assert SidecarOk(s.reg, s.disk, b);
    if state.Done? {
      assert RegistryOk(s.reg);
      AcknowledgedIsCommitted(s.reg, s.net, b);
    }
    forall c | c in s'.disk.sidecars ensures SidecarOk(s'.reg, s'.disk, c) {
      assert c in s.disk.sidecars && SidecarOk(s.reg, s.disk, c);
    }
  }

  lemma DiskEventKeepsInv(s: System, e: Event)
    requires Inv(s) && Enabled(s, e) && !e.Wire? && !e.Change?
    ensures Inv(Next(s, e))
  {
    var s' := Next(s, e);
    if e.TakeZip? {
      NewBundleKeepsInv(s.reg, s.net, e.meta.bundle, Bundle(e.meta, e.bytes));
    }
    forall c | c in s'.disk.sidecars ensures SidecarOk(s'.reg, s'.disk, c) {
      if c in s.disk.sidecars {
        assert SidecarOk(s.reg, s.disk, c);
      }
    }
  }

  lemma NextKeepsInv(s: System, e: Event)
    requires Inv(s) && Enabled(s, e)
    ensures Inv(Next(s, e))
  {
    match e
    case Wire(ne) => WireKeepsInv(s, ne);
    case Change(b, nanos, state, cut) => ChangeKeepsInv(s, b, nanos, state, cut);
    case _ => DiskEventKeepsInv(s, e);
  }

  lemma {:induction false} RunKeepsInv(s: System, es: seq<Event>)
    requires Inv(s) && Legal(s, es)
    ensures Inv(Exec(s, es))
    decreases |es|
  {
    if es != [] {
      NextKeepsInv(s, es[0]);
      RunKeepsInv(Next(s, es[0]), es[1..]);
    }
  }

  // ---------------------------------------------------------------------------------------------
  // The main theorems, over every run
  // ---------------------------------------------------------------------------------------------

  /**
   End-to-end delivery: after any run, a bundle marked done, or one whose zip is gone while its
   sidecar is still there, has a committed session that holds exactly the bytes enqueued.
   */
  lemma DeliveredBeforeForgotten(es: seq<Event>, b: BundleId)
    requires Legal(START, es)
    requires var s := Exec(START, es);
             b in s.disk.sidecars
             && (b !in s.disk.zips || (s.disk.sidecars[b].Whole? && s.disk.sidecars[b].entry.state.Done?))
    ensures var s := Exec(START, es);
            b in s.reg && (AGENT, b) in s.net.server.sessions
            && s.net.server.sessions[(AGENT, b)].blob == s.reg[b].bytes
  {
    RunKeepsInv(START, es);
    assert SidecarOk(Exec(START, es).reg, Exec(START, es).disk, b);
  }

  /** The bundle's sidecar is there, and its zip holds the enqueued bytes unless a session does. */
  ghost predicate Kept(s: System, b: BundleId) {
    && b in s.disk.sidecars && b in s.reg
    && ((b in s.disk.zips && s.disk.zips[b] == s.reg[b].bytes) || Delivered(s, b))
  }

  ghost predicate Delivered(s: System, b: BundleId) {
    b in s.reg && Committed(s.net.server, b) && s.net.server.sessions[(AGENT, b)].blob == s.reg[b].bytes
  }

  lemma SidecarIsKept(s: System, b: BundleId)
    requires Inv(s) && b in s.disk.sidecars
    ensures Kept(s, b)
  {
    assert SidecarOk(s.reg, s.disk, b);
  }

  lemma NextKeepsSidecar(s: System, e: Event, b: BundleId)
    requires Enabled(s, e) && !e.DropSidecar? && b in s.disk.sidecars
    ensures b in Next(s, e).disk.sidecars && (b in s.reg ==> b in Next(s, e).reg && Next(s, e).reg[b] == s.reg[b])
  {
  }

  lemma {:induction false} RunKeepsSidecar(s: System, es: seq<Event>, b: BundleId)
    requires Legal(s, es) && PurgeFree(es) && b in s.disk.sidecars
    ensures b in Exec(s, es).disk.sidecars
    ensures b in s.reg ==> b in Exec(s, es).reg && Exec(s, es).reg[b] == s.reg[b]
    decreases |es|
  {
    hide Enabled, Next;
    if es != [] {
      NextKeepsSidecar(s, es[0], b);
      RunKeepsSidecar(Next(s, es[0]), es[1..], b);
    }
  }

  /**
   Nothing is forgotten: once a bundle's sidecar is there, then however the run goes on, as long as nobody
   purges, the sidecar stays, and its zip holds the enqueued bytes until a session with exactly those
   bytes exists.
   */
  lemma KeptUntilDelivered(es: seq<Event>, fs: seq<Event>, b: BundleId)
    requires Legal(START, es) && b in Exec(START, es).disk.sidecars
    requires Legal(Exec(START, es), fs) && PurgeFree(fs)
    ensures var s, s' := Exec(START, es), Exec(Exec(START, es), fs);
            Kept(s, b) && Kept(s', b) && s'.reg[b] == s.reg[b]
  {
    var s := Exec(START, es);
    RunKeepsInv(START, es);
    SidecarIsKept(s, b);
    RunKeepsSidecar(s, fs, b);
    RunKeepsInv(s, fs);
    SidecarIsKept(Exec(s, fs), b);
  }

  lemma {:induction false} SystemRunGrows(s: System, es: seq<Event>)
    requires Legal(s, es)
    ensures Grows(s.net.server, Exec(s, es).net.server)
    decreases |es|
  {
    if es != [] {
      var next := Next(s, es[0]);
      assert Grows(s.net.server, next.net.server) by {
        if es[0].Wire? {
          NextGrows(s.reg, s.net, es[0].e);
        }
      }
      hide Next, Enabled;
      SystemRunGrows(next, es[1..]);
    }
  }

  /** The server only moves on. */
  lemma ReachableGrows(s: System, s': System)
    requires Reaches(s, s')
    ensures Grows(s.net.server, s'.net.server)
  {
    var es :| IsSystemRun(s, s', es);
    SystemRunGrows(s, es);
  }

  /** The same between any two states of which one reaches the other. */
  lemma ReachableKeepsBundles(s: System, s': System)
    requires Inv(s) && Reaches(s, s')
    ensures forall b :: b in s.disk.sidecars ==> Kept(s', b) && b in s.reg && s'.reg[b] == s.reg[b]
  {
    var es :| IsSystemRun(s, s', es);
    RunKeepsInv(s, es);
    forall b | b in s.disk.sidecars
      ensures Kept(s', b) && b in s.reg && s'.reg[b] == s.reg[b]
    {
      SidecarIsKept(s, b);
      RunKeepsSidecar(s, es, b);
      SidecarIsKept(s', b);
    }
  }

  /** Purging an undelivered bundle breaks the guarantee: no trace of it is left. */
  lemma PurgeForgets(s: System, b: BundleId)
    requires b in s.disk.sidecars && !Committed(s.net.server, b)
    ensures var purge := [DropSidecar(b), DropZip(b)];
            && Legal(s, purge)
            && b !in Exec(s, purge).disk.sidecars && b !in Exec(s, purge).disk.zips
            && !Committed(Exec(s, purge).net.server, b)
  {
    var purge := [DropSidecar(b), DropZip(b)];
    var mid := Next(s, DropSidecar(b));
    ExecOne(mid, DropZip(b));
    assert purge[1..] == [DropZip(b)];
  }

  /**
   Crash consistency: after any run every sidecar is a complete version naming its own bundle,
   and unless it is done the zip beside it holds the enqueued bytes.
   */
  lemma QueueIsCrashConsistent(es: seq<Event>, b: BundleId)
    requires Legal(START, es) && b in Exec(START, es).disk.sidecars
    ensures var s := Exec(START, es);
            && s.disk.sidecars[b].Whole? && b in s.reg && s.disk.sidecars[b].entry.meta == s.reg[b].meta
            && s.disk.sidecars[b].entry.meta.bundle == b
            && (!s.disk.sidecars[b].entry.state.Done? ==> b in s.disk.zips && s.disk.zips[b] == s.reg[b].bytes)
  {
    RunKeepsInv(START, es);
    assert SidecarOk(Exec(START, es).reg, Exec(START, es).disk, b);
    assert RegistryOk(Exec(START, es).reg);
  }

  /** No session of the agent ever holds anything but its bundle's bytes, done or not. */
  lemma NothingElseIsCommitted(es: seq<Event>, b: BundleId)
    requires Legal(START, es) && (AGENT, b) in Exec(START, es).net.server.sessions
    ensures var s := Exec(START, es);
            b in s.reg && s.net.server.sessions[(AGENT, b)].blob == s.reg[b].bytes
  {
    RunKeepsInv(START, es);
  }

  /** Nothing that an upload does ever changes or removes a session; only retention removes one. */
  lemma {:induction false} CommitIsStable(s: System, es: seq<Event>, b: BundleId)
    requires Legal(s, es) && (AGENT, b) in s.net.server.sessions
    ensures (AGENT, b) in Exec(s, es).net.server.sessions
    ensures Exec(s, es).net.server.sessions[(AGENT, b)] == s.net.server.sessions[(AGENT, b)]
    decreases |es|
  {
    if es != [] {
      if es[0].Wire? {
        match es[0].e
        case Receive(device, req) => BeginGrows(s.net.server, device, req);
        case Advance(h, keep) => ResumeGrows(s.net.server, h.task, keep);
        case Die(h, wrote) => DieGrows(s.net.server, h.task, wrote);
        case Send(_, _) =>
      }
      CommitIsStable(Next(s, es[0]), es[1..], b);
    }
  }

  /** Upload safety: after any run, settled staging is the prefix of the bundle up to the offset. */
  lemma StagingIsAlwaysAPrefix(es: seq<Event>, row: nat)
    requires Legal(START, es)
    requires var net := Exec(START, es).net;
             OwnRow(net.server, row) && row in net.server.staging && row !in net.torn
             && forall h :: h in net.handlers && h.task.WriteChunk? ==> h.task.row != row
    ensures var s := Exec(START, es);
            var u := s.net.server.uploads[row];
            u.meta.bundle in s.reg && u.offset <= |s.reg[u.meta.bundle].bytes|
            && s.net.server.staging[row] == s.reg[u.meta.bundle].bytes[..u.offset]
  {
    RunKeepsInv(START, es);
    StagedIsPrefix(Exec(START, es).reg, Exec(START, es).net, row);
  }

  // ---------------------------------------------------------------------------------------------
  // A commit the agent never hears of
  // ---------------------------------------------------------------------------------------------

  /** The one-byte bundle in the queue in some state, with the network as given. */
  function TinySystem(state: QueueState, net: Net): System {
    System(map[1 := Bundle(TINY, [7])], Disk(map[1 := [7]], map[1 := Whole(Entry(TINY, state, 0))], map[]), net)
  }

  lemma TinyIsQueued()
    ensures Reaches(START, TinySystem(BundleQueue.Pending, EMPTY_NET))
  {
    var taken := System(map[1 := Bundle(TINY, [7])], Disk(map[1 := [7]], map[], map[]), EMPTY_NET);
    var queued := TinySystem(BundleQueue.Pending, EMPTY_NET);
    ReachesNext(START, TakeZip(TINY, [7]));
    assert SaveSidecar(taken.disk, 1, 0, Entry(TINY, BundleQueue.Pending, 0), Renamed) == queued.disk;
    ReachesNext(taken, WriteEntry(1, 0, 0, Renamed));
    hide Reaches;
    ReachesOn(START, taken, queued);
  }

  lemma TinyChanges(state: QueueState, state': QueueState, net: Net)
    requires MayChange(net, Entry(TINY, state, 0), state')
    ensures Reaches(TinySystem(state, net), TinySystem(state', net))
  {
    var s := TinySystem(state, net);
    assert SaveSidecar(s.disk, 1, 0, Entry(TINY, state', 0), Renamed) == TinySystem(state', net).disk;
    ReachesNext(s, Change(1, 0, state', Renamed));
  }

  /**
   A run, from the start and without a purge, to a state in which the server holds the session of a bundle
   that the agent has pending: the answer to finalize is lost, the process dies and recovery puts the entry
   back. In that state init names the session in place of an upload, and finalize under it is a 404.
   */
  lemma ASilentCommit() returns (s: System, b: BundleId)
    ensures Reaches(START, s) && b in s.disk.sidecars && s.disk.sidecars[b].Whole?
    ensures s.disk.sidecars[b].entry.state == BundleQueue.Pending && Delivered(s, b)
    ensures var (s1, reply) := Handle(s.net.server, AGENT, InitRequest(s.reg[b].meta));
            && s1 == s.net.server && reply.InitOk?
            && Handle(s1, AGENT, FinalizeRequest(reply.upload, s.reg[b].meta.sha)) == (s1, Refused(NOT_FOUND))
  {
    hide Reaches;
    b, s := 1, TinySystem(BundleQueue.Pending, TINY_COMMITTED);
    var queued, claimed := TinySystem(BundleQueue.Pending, EMPTY_NET), TinySystem(Uploading, EMPTY_NET);
    var committed := TinySystem(Uploading, TINY_COMMITTED);
    TinyIsQueued();
    TinyChanges(BundleQueue.Pending, Uploading, EMPTY_NET);
    TinyGetsCommitted(claimed.reg);
    ReachesByWire(claimed, TINY_COMMITTED);
    TinyChanges(Uploading, BundleQueue.Pending, TINY_COMMITTED);
    ReachesOn(START, queued, claimed);
    ReachesOn(START, claimed, committed);
    ReachesOn(START, committed, s);
  }

  lemma TinyGetsCommitted(reg: Registry)
    requires reg == map[1 := Bundle(TINY, [7])]
    ensures Leads(reg, EMPTY_NET, TINY_COMMITTED)
  {
    TinyIsGranted(reg);
    TinyIsStaged(reg);
    TinyIsCommitted(reg);
    LeadsOn(reg, EMPTY_NET, TINY_GRANTED, TINY_STAGED);
    LeadsOn(reg, EMPTY_NET, TINY_STAGED, TINY_COMMITTED);
  }
}
