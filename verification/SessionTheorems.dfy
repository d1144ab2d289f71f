/** What a user of the two connections can rely on, in every run and at the end of every run. */
module SessionTheorems {
  import opened Wire
  import opened Packs
  import opened Session
  import opened SessionScript
  import opened SessionScripts
  import opened SessionSettle
  import opened SessionSide
  import opened SessionServer
  import opened SessionClient
  import opened SessionTransfer
  import opened SessionInvariant
  import opened SessionServerSteps
  import opened SessionClientSteps
  import opened SessionTransferSteps
  import opened SessionRuns
  import opened SessionReach

  // -------------------------------------------------------------------- safety

  /** The counter of packs is right for what is not there yet. */
  predicate Counts(cfg: Config, q: Queue)
  {
    q.amount == Left(cfg, q.downloads, |cfg.order|)
  }

  /** Before a dialer answers the announcement of the packs: nothing is counted, and nothing fetched. */
  predicate BeforePacks(written: seq<Packet>, q: Queue)
  {
    q.amount == 0 && q.downloads == map[] && forall i | 0 <= i < |written| :: OfLogin(written[i])
  }

  /** What a dialer writes before the packs are announced. */
  predicate OfLogin(p: Packet)
  {
    p.RequestNetworkSettings? || p.Login? || p.ClientToServerHandshake? || p.ClientCacheStatus?
  }

  lemma {:induction false} EarlyWrites(cfg: Config, p: Pos, packets: seq<Packet>, q: Pos)
    requires Transferable(cfg) && Path(cfg, p, packets, q) && Up(p) && Stage(q) <= 4
    ensures forall i | 0 <= i < |packets| :: OfLogin(packets[i])
    decreases |packets|
  {
    if packets != [] {
      NextOn(cfg, p);
      PathForward(cfg, Next(cfg, p).next, packets[1..], q);
      EarlyWrites(cfg, Next(cfg, p).next, packets[1..], q);
    }
  }

  /** The dialer holds every pack that it asked for, and turned down a stack that lists another one. */
  predicate Refused(cfg: Config, c: Conn)
  {
    !Acceptable(cfg) && Complete(cfg, c.queue) && !c.gate.loggedIn && c.gate.spawns == 0
  }

  /**
   * In a state reached so far: no handler returned an error, but for that of a stack with a pack the dialer misses, and no
   * batch was decoded in another mode than it was encoded in; the listener deferred nothing, the dialer only what is for
   * its user; spawn was closed at most once; both sides wrote the beginnings of the scripts; from the dialer's answer to the
   * announcement on the counter of packs is right; a dialer that is logged in has every pack; and no encoder is about to
   * change its mode while something is buffered.
   */
  predicate Safe(cfg: Config, s: State)
    requires ValidConfig(cfg)
  {
    && !s.server.failed && (s.client.failed ==> Refused(cfg, s.client))
    && s.server.deferred == []
    && s.client.deferred <= [JigsawStructureData, VoxelShapes, CreativeContent]
    && s.server.gate.spawns <= 1 && s.client.gate.spawns <= 1
    && s.client.written <= UpScript(cfg) && s.server.written <= DownScript(cfg)
    && (BeforePacks(s.client.written, s.client.queue) || Counts(cfg, s.client.queue))
    && Drained(s.server) && Drained(s.client)
    && (s.client.gate.loggedIn ==> Complete(cfg, s.client.queue))
  }

  lemma {:induction false} SettleGrows(cfg: Config, k: Core, todo: seq<Op>, main: seq<Op>)
    requires Transferable(cfg) && Settle(cfg, k, todo, main).Settled?
    ensures var g := Settle(cfg, k, todo, main).core.gate;
      k.gate.spawns <= g.spawns && (k.gate.loggedIn ==> g.loggedIn)
    decreases |main| + |todo|
  {
    if !Blocked(main) {
      SettleGrows(cfg, Do(cfg, k, main[0]).value, todo, main[1..]);
    } else if todo == [] {
    } else if todo[0].Signal? {
      SettleGrows(cfg, k, todo[1..], main[1..]);
    } else {
      SettleGrows(cfg, Do(cfg, k, todo[0]).value, todo[1..], main);
    }
  }

  lemma ServerIsSafe(cfg: Config, c: Conn, x: Pos, y: Pos)
    requires ValidConfig(cfg) && ServerOk(cfg, c, x, y)
    ensures !c.failed && c.deferred == [] && c.gate.spawns <= 1 && Drained(c)
  {
    SettleGrows(cfg, Core(c.gate, y), c.todo, c.main);
  }

  lemma QuietCounts(cfg: Config, c: Conn, y: Pos, x: Pos)
    requires ValidConfig(cfg) && On(cfg, y) && !Up(y) && !Transfers(y) && QuietOk(cfg, c, y, x)
    requires Path(cfg, X0, c.written, x)
    ensures BeforePacks(c.written, c.queue) || Counts(cfg, c.queue)
  {
    hide Agreed, Ordered, Path, Settle;
    if y.YInfo? {
      LeftAll(cfg, |cfg.order|);
      LeftSame(cfg, map[], c.queue.downloads, |cfg.order|);
    } else if Stage(y) >= 6 {
      LeftZero(cfg, c.queue.downloads, |cfg.order|);
    } else {
      PositionGrows(cfg, Core(c.gate, x), c.todo, c.main);
      EarlyWrites(cfg, X0, c.written, x);
    }
  }

  lemma QuietIsSafe(cfg: Config, c: Conn, y: Pos, x: Pos)
    requires ValidConfig(cfg) && On(cfg, y) && !Up(y) && !Transfers(y) && QuietOk(cfg, c, y, x)
    requires Path(cfg, X0, c.written, x)
    ensures !c.failed && c.gate.spawns <= 1 && (c.gate.loggedIn ==> Complete(cfg, c.queue))
    ensures BeforePacks(c.written, c.queue) || Counts(cfg, c.queue)
  {
    hide Agreed, Ordered, Complete, QuietQueue, Counts, BeforePacks, Path;
    SettleGrows(cfg, Core(c.gate, x), c.todo, c.main);
    QuietCounts(cfg, c, y, x);
  }

  lemma ClientIsSafe(cfg: Config, c: Conn, y: Pos, x: Pos)
    requires ValidConfig(cfg) && ClientOk(cfg, c, y, x) && Path(cfg, X0, c.written, x)
    ensures !c.failed && c.deferred <= [JigsawStructureData, VoxelShapes, CreativeContent] && c.gate.spawns <= 1
    ensures (c.gate.loggedIn ==> Complete(cfg, c.queue)) && (BeforePacks(c.written, c.queue) || Counts(cfg, c.queue))
    ensures Drained(c)
  {
    hide Agreed, Ordered, Tracks, Holding, RestOk, Complete, SideOk, QuietQueue;
    if !Transfers(y) {
      QuietIsSafe(cfg, c, y, x);
      QuietIsDrained(cfg, c, y, x);
    }
  }

  lemma QuietIsDrained(cfg: Config, c: Conn, y: Pos, x: Pos)
    requires Transferable(cfg) && On(cfg, y) && !Up(y) && !Transfers(y) && QuietOk(cfg, c, y, x)
    ensures Drained(c)
  {
  }

  lemma InvIsSafe(cfg: Config, s: State, m: Marks)
    requires ValidConfig(cfg) && Inv(cfg, s, m)
    ensures Safe(cfg, s) && !s.client.failed
  {
    hide Agreed, Ordered, Path, Transferable, ClientOk, ServerOk, Stream, UpScript, DownScript, Counts, Complete, BeforePacks, Drained;
    ServerIsSafe(cfg, s.server, m.handledUp, m.writtenDown);
    ClientIsSafe(cfg, s.client, m.handledDown, m.writtenUp);
    UpIsPath(cfg);
    DownIsPath(cfg);
    PathPrefix(cfg, X0, s.client.written, m.writtenUp, UpScript(cfg), XDone);
    PathPrefix(cfg, Y0, s.server.written, m.writtenDown, DownScript(cfg), YDone);
  }

  lemma RefusalIsSafe(cfg: Config, s0: State, m: Marks, s: State)
    requires ValidConfig(cfg) && Inv(cfg, s0, m) && Safe(cfg, s0) && TurnedDown(cfg, s0, s)
    ensures Safe(cfg, s) && Refused(cfg, s.client)
  {
    hide ValidConfig, Inv, Acceptable, Accepts, UpScript, DownScript, Counts, Complete, BeforePacks;
    ComesToStack(cfg, s0, m);
  }

  /** Every state of every run of every valid configuration is safe. */
  lemma Safety(cfg: Config, schedule: seq<Actor>)
    requires ValidConfig(cfg)
    ensures Safe(cfg, Run(cfg, schedule))
  {
    hide ValidConfig, Inv, Safe, TurnedDown, Run;
    var s0, m := Reaches(cfg, schedule);
    InvIsSafe(cfg, s0, m);
    if Run(cfg, schedule) != s0 { RefusalIsSafe(cfg, s0, m, Run(cfg, schedule)); }
  }

  // ---------------------------------------------------------------- completion

  /**
   * In every run: when the dialer takes a chunk, it is the k-th chunk of a pack of the order, the goroutine of that pack
   * waits for it, and the pack's buffer holds exactly the chunks before it.
   */
  lemma ChunksInOrder(cfg: Config, schedule: seq<Actor>) returns (i: nat)
    requires ValidConfig(cfg)
    requires var c := Run(cfg, schedule).client; CanReceive(c) && c.inbox[0].ChunkData?
    ensures var c := Run(cfg, schedule).client;
      var p := c.inbox[0];
      && i < |cfg.order| && p.index < Count(cfg, i) && p == DataOf(cfg, i, p.index) && p.id in c.queue.downloads
      && c.queue.downloads[p.id].at == Listening(p.index)
      && c.queue.downloads[p.id].buf == Concat(Pieces(cfg.order[i].content, cfg.chunk)[..p.index])
  {
    hide Agreed, Ordered, Path, ServerOk;
    var s, m := Reaches(cfg, schedule);
    assert s == Run(cfg, schedule);
    StreamHandled(cfg, m.handledDown, s.client.inbox, s.down, s.server.buffer, m.writtenDown);
    var y' := Next(cfg, m.handledDown).next;
    i := ChunkIsNext(cfg, m.handledDown, s.client.inbox[0]);
    TransferIsAsked(cfg, s, m, y');
    WaitsForChunk(cfg, s.client, m.handledDown, m.writtenUp);
  }

  lemma ChunkIsNext(cfg: Config, y: Pos, p: Packet) returns (i: nat)
    requires Transferable(cfg) && On(cfg, y) && !Up(y) && p.ChunkData? && Next(cfg, y).Turn? && Next(cfg, y).packet == p
    ensures Transfers(y) && i == y.i < |cfg.order| && PartOf(y) < Count(cfg, i) && p == DataOf(cfg, i, PartOf(y))
    ensures p.index == PartOf(y) && Next(cfg, y).next == YChunk(i, PartOf(y))
  {
    i := y.i;
  }

  lemma WaitsForChunk(cfg: Config, c: Conn, y: Pos, x: Pos)
    requires ValidConfig(cfg) && On(cfg, y) && Transfers(y) && ClientOk(cfg, c, y, x) && c.todo == []
    requires PartOf(y) < Count(cfg, y.i) && x == XRequest(y.i, PartOf(y)) && c.inbox != []
    ensures var id, d := cfg.order[y.i].id, c.queue.downloads;
      id in d && d[id].at == Listening(PartOf(y)) && d[id].buf == Prefix(cfg, y.i, PartOf(y))
  {
    hide Agreed, Ordered, Path, Holding, Pieces;
    StillFetches(cfg, c, y, x);
    AskingIsNotListening(cfg, c.queue, y);
  }

  /** Nobody can move: neither a reader nor a flusher nor any other goroutine. */
  ghost predicate Stopped(cfg: Config, s: State)
  {
    forall a: Actor :: !Enabled(cfg, s, a)
  }

  /** Both sides have spawned, everything was written and handled, and the dialer holds every pack. */
  predicate Finished(cfg: Config, s: State)
    requires ValidConfig(cfg)
  {
    && s.server.gate.spawns == 1 && s.client.gate.spawns == 1
    && s.server.gate.loggedIn && s.client.gate.loggedIn
    && s.client.written == UpScript(cfg) && s.server.written == DownScript(cfg)
    && s.server.deferred == [] && s.client.deferred == [JigsawStructureData, VoxelShapes, CreativeContent]
    && Complete(cfg, s.client.queue)
  }

  /** A side that can do nothing has nothing left to do. */
  lemma SideStops(cfg: Config, c: Conn, pos: Pos, goal: Settled)
    requires Transferable(cfg) && SideOk(cfg, c, pos, goal) && !CanStep(c) && !CanMain(c)
    ensures c.todo == [] && Core(c.gate, pos) == goal.core
  {
  }

  lemma ServerStops(cfg: Config, s: State, m: Marks)
    requires ValidConfig(cfg) && Inv(cfg, s, m) && Stopped(cfg, s)
    ensures Core(s.server.gate, m.writtenDown) == ServerGoal(cfg, m.handledUp).core && s.server.todo == []
  {
    hide Count, FinalMode, Has, IdsFrom, On, Ordered, PendingFrom, Pieces, SortFirst, Stage, ServerGoal;
    assert !Enabled(cfg, s, ServerStep) && !Enabled(cfg, s, ServerMain);
    SideStops(cfg, s.server, m.writtenDown, ServerGoal(cfg, m.handledUp));
  }

  /** In the transfer, only a request on its way can keep all goroutines waiting. */
  lemma TransferStops(cfg: Config, c: Conn, y: Pos, x: Pos)
    requires ValidConfig(cfg) && On(cfg, y) && Transfers(y) && ClientOk(cfg, c, y, x)
    requires !CanStep(c) && !CanRest(c) && forall id :: !CanFetch(c.queue, id)
    ensures c.todo == [] && x == Answer(cfg, y)
  {
    hide Ordered, Agreed, Holding, QuietOk, SideOk, Accepts, Path, Blocked, Idle, IdsFrom, ModeOf, NameOf, Pieces;
    var i, h := y.i, PartOf(y);
    var d := c.queue.downloads[cfg.order[i].id];
    assert !CanFetch(c.queue, cfg.order[i].id);
    if c.todo != [] {
      assert false;
    }
    if d.at.Gone? && i + 1 == |cfg.order| {
      forall j | 0 <= j < |cfg.order| ensures Arrived(c.queue.downloads, cfg.order[j].id) {
        assert !CanFetch(c.queue, cfg.order[j].id);
      }
      LeftZero(cfg, c.queue.downloads, |cfg.order|);
    } else if c.queue.amount == 0 {
      NoneLeft(cfg, c.queue, i, h, false);
    }
  }

  lemma ClientStops(cfg: Config, s: State, m: Marks)
    requires ValidConfig(cfg) && Inv(cfg, s, m) && Stopped(cfg, s)
    ensures m.writtenUp == Answer(cfg, m.handledDown) && s.client.todo == []
    ensures !Transfers(m.handledDown) ==> s.client.gate == ClientGate(cfg, m.handledDown)
  {
    hide Agreed, Ordered, Path, TransferOk, ServerOk, Stream;
    assert !Enabled(cfg, s, ClientStep) && !Enabled(cfg, s, ClientMain) && !Enabled(cfg, s, Rest);
    if Transfers(m.handledDown) {
      forall id ensures !CanFetch(s.client.queue, id) {
        assert !Enabled(cfg, s, Fetch(id));
      }
      TransferStops(cfg, s.client, m.handledDown, m.writtenUp);
    } else {
      SideStops(cfg, s.client, m.writtenUp, ClientGoal(cfg, m.handledDown));
    }
  }

  lemma NobodyTakes(cfg: Config, s: State)
    requires Stopped(cfg, s) && s.server.todo == [] && s.client.todo == [] && !s.server.failed && !s.client.failed
    ensures s.server.inbox == [] && s.up == [] && s.server.buffer == []
    ensures s.client.inbox == [] && s.down == [] && s.client.buffer == []
  {
    assert !Enabled(cfg, s, ServerFlush) && !Enabled(cfg, s, ServerDecode) && !Enabled(cfg, s, ServerReceive);
    assert !Enabled(cfg, s, ClientFlush) && !Enabled(cfg, s, ClientDecode) && !Enabled(cfg, s, ClientReceive);
  }

  lemma EmptyStream(cfg: Config, from: Pos, to: Pos)
    requires Transferable(cfg) && Stream(cfg, from, [], [], [], to)
    ensures from == to
  {
    assert [] + Flat([]) + [] == [];
  }

  /** Nothing is on its way when nobody can move. */
  lemma WiresEmpty(cfg: Config, s: State, m: Marks)
    requires ValidConfig(cfg) && Inv(cfg, s, m) && Stopped(cfg, s) && s.server.todo == [] && s.client.todo == []
    ensures m.handledUp == m.writtenUp && m.handledDown == m.writtenDown
  {
    hide Agreed, Ordered, Transferable, ClientOk, ServerOk, Stopped, Stream, Path, Refused, Counts, BeforePacks, Complete;
    hide UpScript, DownScript, Drained;
    InvIsSafe(cfg, s, m);
    NobodyTakes(cfg, s);
    EmptyStream(cfg, m.handledUp, m.writtenUp);
    EmptyStream(cfg, m.handledDown, m.writtenDown);
  }

  /** Where what one side wrote last is answered by what the other wrote last, everything is over. */
  lemma OnlyTheEnd(cfg: Config, x: Pos)
    requires Transferable(cfg) && On(cfg, x) && Up(x) && On(cfg, Reply(cfg, x)) && !Up(Reply(cfg, x))
    requires x == Answer(cfg, Reply(cfg, x))
    ensures x == XDone
  {
  }

  lemma StopsFinished(cfg: Config, s: State, m: Marks)
    requires ValidConfig(cfg) && Inv(cfg, s, m) && Stopped(cfg, s)
    ensures Finished(cfg, s) && Acceptable(cfg)
    ensures s.server.gate == ServerGate(cfg, XDone) && s.client.gate == ClientGate(cfg, YDone)
  {
    ServerStops(cfg, s, m);
    ClientStops(cfg, s, m);
    WiresEmpty(cfg, s, m);
    OnlyTheEnd(cfg, m.handledUp);
    EndIsFinished(cfg, s, m);
  }

  lemma ServerUnspawned(cfg: Config, c: Conn, x: Pos, y: Pos)
    requires ValidConfig(cfg) && ServerOk(cfg, c, x, y) && Stage(x) <= 7
    ensures !c.gate.loggedIn && c.gate.spawns == 0
  {
    SettleGrows(cfg, Core(c.gate, y), c.todo, c.main);
  }

  /** Where the dialer turns the stack down, the listener is not logged in. */
  lemma NobodySpawns(cfg: Config, s: State, m: Marks)
    requires ValidConfig(cfg) && Inv(cfg, s, m) && m.writtenUp == XAll
    ensures !s.server.gate.loggedIn && s.server.gate.spawns == 0
  {
    hide Agreed, Ordered, ClientOk, SideOk, Path;
    Circle(cfg, s, m);
    ServerUnspawned(cfg, s.server, m.handledUp, m.writtenDown);
  }

  /**
   * A run that cannot go on has brought both sides to the spawn, if the stack lists no pack that the dialer misses;
   * otherwise the dialer has turned the stack down, and neither side is logged in.
   */
  lemma Completion(cfg: Config, schedule: seq<Actor>)
    requires ValidConfig(cfg) && Stopped(cfg, Run(cfg, schedule))
    ensures var s := Run(cfg, schedule);
      if Acceptable(cfg) then Finished(cfg, s)
      else s.client.failed && Refused(cfg, s.client) && !s.server.gate.loggedIn && s.server.gate.spawns == 0
  {
    hide ValidConfig, Inv, Safe, Stopped, Finished, Refused, Acceptable, Run;
    var s0, m := Reaches(cfg, schedule);
    var s := Run(cfg, schedule);
    if s == s0 {
      StopsFinished(cfg, s, m);
    } else {
      InvIsSafe(cfg, s0, m);
      RefusalIsSafe(cfg, s0, m, s);
      ComesToStack(cfg, s0, m);
      NobodySpawns(cfg, s0, m);
    }
  }

  lemma EndIsFinished(cfg: Config, s: State, m: Marks)
    requires ValidConfig(cfg) && Inv(cfg, s, m) && m == Marks(XDone, YDone, YDone, XDone)
    requires s.server.gate == ServerGate(cfg, XDone) && s.client.gate == ClientGate(cfg, YDone)
    ensures Finished(cfg, s)
  {
    hide Agreed, Ordered, Stream, UpScript, DownScript, SideOk;
    UpIsPath(cfg);
    DownIsPath(cfg);
    PathPrefix(cfg, X0, s.client.written, XDone, UpScript(cfg), XDone);
    PathPrefix(cfg, Y0, s.server.written, YDone, DownScript(cfg), YDone);
  }
}
