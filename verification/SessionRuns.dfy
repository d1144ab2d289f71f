/** Every step keeps the invariant, and it holds at the beginning. */
module SessionRuns {
  import opened Wire
  import opened Packs
  import opened Session
  import opened SessionScript
  import opened SessionSettle
  import opened SessionSide
  import opened SessionServer
  import opened SessionClient
  import opened SessionTransfer
  import opened SessionInvariant
  import opened SessionServerSteps
  import opened SessionClientSteps
  import opened SessionTransferSteps
  import opened SessionFetchSteps

  // ------------------------------------------------------------------ one step

  /** The dialer does not turn the next packet down. */
  predicate Agreeable(cfg: Config, c: Conn)
  {
    c.inbox != [] && c.inbox[0].ResourcePackStack? ==> Acceptable(cfg)
  }

  /** The packets behind the stack come behind it. */
  lemma StackIsFirst(cfg: Config, y: Pos)
    requires Transferable(cfg) && On(cfg, y) && !Up(y) && Next(cfg, y).Turn? && Stage(Next(cfg, y).next) >= 6
    ensures Stage(y) >= 6 || Next(cfg, y).packet.ResourcePackStack?
  {
  }

  lemma ClientHandlesNext(cfg: Config, s: State, m: Marks) returns (y': Pos)
    requires ValidConfig(cfg) && CanReceive(s.client) && Inv(cfg, s, m) && Agreeable(cfg, s.client)
    ensures ClientOk(cfg, Receive(cfg, s.client, false), y', m.writtenUp)
    ensures Stream(cfg, y', s.client.inbox[1..], s.down, s.server.buffer, m.writtenDown)
    ensures Stage(y') >= 6 ==> Acceptable(cfg)
  {
    hide ClientOk, ServerOk, Stream, Path, Ordered, Agreed, Acceptable, Transferable, Transfers, On, Up, Stage, Receive, Next;
    var y := m.handledDown;
    Answered(cfg, s, m);
    StreamHandled(cfg, y, s.client.inbox, s.down, s.server.buffer, m.writtenDown);
    y' := Next(cfg, y).next;
    if Stage(y') >= 6 { StackIsFirst(cfg, y); }
    if Transfers(y) {
      TransferHandlesNext(cfg, s, m, y');
    } else {
      ClientRests(cfg, s, m);
      QuietHandlesNext(cfg, s, m, y');
    }
  }

  lemma QuietHandlesNext(cfg: Config, s: State, m: Marks, y': Pos)
    requires ValidConfig(cfg) && CanReceive(s.client) && On(cfg, m.handledDown) && !Transfers(m.handledDown)
    requires Next(cfg, m.handledDown) == Turn(s.client.inbox[0], y') && On(cfg, y') && !Up(y')
    requires Inv(cfg, s, m)
    requires Idle(s.client.main) && Rested(s.client.main) == ClientRest(m.handledDown)
    requires Core(s.client.gate, m.writtenUp) == ClientGoal(cfg, m.handledDown).core && Agreeable(cfg, s.client)
    ensures ClientOk(cfg, Receive(cfg, s.client, false), y', m.writtenUp)
  {
    var c, y, x := s.client, m.handledDown, m.writtenUp;
    if ForUser(c.inbox[0]) {
      UserReceives(cfg, c, y, x);
    } else if c.inbox[0].DataInfo? {
      FirstInfoReceived(cfg, c, x);
    } else {
      if c.inbox[0].NetworkSettings? || c.inbox[0].ServerToClientHandshake? {
        SwitchIsDrained(cfg, s, m);
      }
      QuietReceives(cfg, c, y, x);
    }
  }

  /** A chunk that arrives is one the dialer asked for, and the stack comes after the request for it. */
  lemma TransferIsAsked(cfg: Config, s: State, m: Marks, y': Pos)
    requires ValidConfig(cfg) && CanReceive(s.client) && On(cfg, m.handledDown) && Transfers(m.handledDown)
    requires Next(cfg, m.handledDown) == Turn(s.client.inbox[0], y') && On(cfg, y')
    requires Inv(cfg, s, m)
    ensures y'.YChunk? ==> m.writtenUp == XRequest(y'.i, y'.k)
    ensures y'.YStack? ==> m.writtenUp == XAll
  {
    hide Agreed, Ids;
    Answered(cfg, s, m);
    hide *;
    Circle(cfg, s, m);
    if y'.YChunk? {
      Antisymmetric(XRequest(y'.i, y'.k), m.writtenUp);
    } else if y'.YStack? {
      Antisymmetric(XAll, m.writtenUp);
    }
  }

  lemma TransferHandlesNext(cfg: Config, s: State, m: Marks, y': Pos)
    requires ValidConfig(cfg) && CanReceive(s.client) && On(cfg, m.handledDown) && Transfers(m.handledDown)
    requires Next(cfg, m.handledDown) == Turn(s.client.inbox[0], y') && On(cfg, y')
    requires Inv(cfg, s, m) && Agreeable(cfg, s.client)
    ensures ClientOk(cfg, Receive(cfg, s.client, false), y', m.writtenUp)
  {
    TransferIsAsked(cfg, s, m, y');
    TransferTakesNext(cfg, s.client, m.handledDown, m.writtenUp, y');
  }

  lemma TransferTakesNext(cfg: Config, c: Conn, y: Pos, x: Pos, y': Pos)
    requires ValidConfig(cfg) && On(cfg, y) && Transfers(y) && ClientOk(cfg, c, y, x) && c.todo == [] && c.inbox != []
    requires Next(cfg, y) == Turn(c.inbox[0], y')
    requires y'.YChunk? ==> x == XRequest(y'.i, y'.k)
    requires y'.YStack? ==> x == XAll && Acceptable(cfg)
    ensures ClientOk(cfg, Receive(cfg, c, false), y', x)
  {
    if PartOf(y) < Count(cfg, y.i) {
      ChunkReceived(cfg, c, y, x);
    } else if y.i + 1 < |cfg.order| {
      InfoReceived(cfg, c, y, x);
    } else {
      StackReceived(cfg, c, y);
    }
  }

  lemma ClientReceives(cfg: Config, s: State, m: Marks) returns (m': Marks)
    requires ValidConfig(cfg) && Inv(cfg, s, m) && Enabled(cfg, s, ClientReceive) && Agreeable(cfg, s.client)
    ensures Inv(cfg, Act(cfg, s, ClientReceive), m')
  {
    var y' := ClientHandlesNext(cfg, s, m);
    m' := m.(handledDown := y');
    ReceiveKeeps(cfg, s.client);
  }

  lemma ReceiveKeeps(cfg: Config, c: Conn)
    requires c.inbox != []
    ensures var c' := Receive(cfg, c, false);
      c'.buffer == c.buffer && c'.written == c.written && c'.inbox == c.inbox[1..]
  {
  }

  lemma ClientProceeds(cfg: Config, s: State, m: Marks, c: Conn, x: Pos)
    requires ValidConfig(cfg) && Inv(cfg, s, m)
    requires ClientOk(cfg, c, m.handledDown, x) && Proceeds(cfg, s.client, c, m.writtenUp, x)
    ensures Inv(cfg, s.(client := c), m.(writtenUp := x))
  {
    if x != m.writtenUp {
      StreamWritten(cfg, m.handledUp, s.server.inbox, s.up, s.client.buffer, m.writtenUp);
      PathGrows(cfg, X0, s.client.written, m.writtenUp);
    }
  }

  lemma ClientSteps(cfg: Config, s: State, m: Marks) returns (m': Marks)
    requires ValidConfig(cfg) && Inv(cfg, s, m) && Enabled(cfg, s, ClientStep)
    ensures Inv(cfg, Act(cfg, s, ClientStep), m')
  {
    if !Transfers(m.handledDown) {
      m' := QuietStep(cfg, s, m);
    } else {
      var c := s.client;
      if c.todo[0].Flush? {
        TransferFlush(cfg, c, m.handledDown, m.writtenUp);
        ClientProceeds(cfg, s, m, Step(c), m.writtenUp);
        ClientFlushes(cfg, s.(client := Step(c)), m);
      } else {
        TransferDeliver(cfg, c, m.handledDown, m.writtenUp);
        ClientProceeds(cfg, s, m, Step(c), m.writtenUp);
      }
      m' := m;
    }
  }

  lemma ClientMains(cfg: Config, s: State, m: Marks) returns (m': Marks)
    requires ValidConfig(cfg) && Inv(cfg, s, m) && Enabled(cfg, s, ClientMain)
    ensures Inv(cfg, Act(cfg, s, ClientMain), m')
  {
    if !Transfers(m.handledDown) {
      m' := QuietMain(cfg, s, m);
    } else {
      TransferMain(cfg, s.client, m.handledDown, m.writtenUp);
      ClientProceeds(cfg, s, m, MainStep(s.client), m.writtenUp);
      ClientFlushes(cfg, s.(client := MainStep(s.client)), m);
      m' := m;
    }
  }

  /** Any step of any actor, but for a dialer that turns the pack stack down. */
  lemma Keeps(cfg: Config, s: State, m: Marks, a: Actor) returns (m': Marks)
    requires ValidConfig(cfg) && Inv(cfg, s, m) && Enabled(cfg, s, a) && (a.ClientReceive? ==> Agreeable(cfg, s.client))
    ensures Inv(cfg, Act(cfg, s, a), m')
  {
    match a
    case ServerFlush => ServerFlushes(cfg, s, m); m' := m;
    case ServerDecode => ServerDecodes(cfg, s, m); m' := m;
    case ServerReceive => m' := ServerReceives(cfg, s, m);
    case ServerStep => m' := ServerSteps(cfg, s, m);
    case ServerMain => m' := ServerMains(cfg, s, m);
    case ClientFlush => ClientFlushes(cfg, s, m); m' := m;
    case ClientDecode => ClientDecodes(cfg, s, m); m' := m;
    case ClientReceive => m' := ClientReceives(cfg, s, m);
    case ClientStep => m' := ClientSteps(cfg, s, m);
    case ClientMain => m' := ClientMains(cfg, s, m);
    case Fetch(id) =>
      var x := Fetches(cfg, s.client, m.handledDown, m.writtenUp, id);
      ClientProceeds(cfg, s, m, FetchStep(cfg, s.client, id), x);
      m' := m.(writtenUp := x);
    case Rest =>
      var x := Rests(cfg, s.client, m.handledDown, m.writtenUp);
      ClientProceeds(cfg, s, m, RestStep(s.client), x);
      m' := m.(writtenUp := x);
  }

  // -------------------------------------------------------------- the beginning

  lemma EagerCons(op: Op, main: seq<Op>)
    requires Eager(main) && !Switches(op) && (op.Await? || op.Put? || Writes(main) || (op.Flush? && Idle(main)))
    ensures Eager([op] + main)
  {
    assert ([op] + main)[1..] == main;
  }

  /** One round of the goroutine that dials: it says what it expects, writes a packet, flushes, and waits. */
  lemma EagerRound(ids: set<Kind>, p: Packet, rest: seq<Op>)
    requires Eager([Await] + rest)
    ensures Eager([Expect(ids)] + ([Put(p)] + ([Flush] + ([Await] + rest))))
  {
    EagerCons(Flush, [Await] + rest);
    EagerCons(Put(p), [Flush] + ([Await] + rest));
    EagerCons(Expect(ids), [Put(p)] + ([Flush] + ([Await] + rest)));
  }

  lemma EagerDial()
    ensures Eager(DIAL)
  {
    hide Idle, Writes;
    var a, b := {NetworkSettingsId, PlayStatusId}, {ServerToClientHandshakeId, PlayStatusId, ResourcePacksInfoId};
    EagerCons(Await, []);
    EagerRound(b, Login, []);
    var second := [Expect(b)] + ([Put(Login)] + ([Flush] + ([Await] + [])));
    EagerCons(Await, second);
    EagerRound(a, RequestNetworkSettings, second);
    assert DIAL == [Expect(a)] + ([Put(RequestNetworkSettings)] + ([Flush] + ([Await] + second)));
  }

  lemma EagerGame(cfg: Config)
    ensures Eager([Await] + Game(cfg))
  {
    hide Eager, Idle;
    var writes := [Put(JigsawStructureData), Put(VoxelShapes), Put(StartGame), Put(ItemRegistry), Flush];
    EagerWrites();
    var tail := (if cfg.dimensions then [Put(DimensionData)] else []) + writes;
    if cfg.dimensions { EagerCons(Put(DimensionData), writes); }
    assert !cfg.dimensions ==> tail == writes;
    var gated := Expect({RequestChunkRadiusId, SetLocalPlayerId});
    EagerCons(gated, tail);
    assert ([gated] + tail)[1..] == tail;
    EagerCons(Waiting(true), [gated] + tail);
    assert Game(cfg) == [Waiting(true)] + ([gated] + tail);
    EagerCons(Await, Game(cfg));
  }

  lemma EagerWrites()
    ensures Eager([Put(JigsawStructureData), Put(VoxelShapes), Put(StartGame), Put(ItemRegistry), Flush])
  {
    var a := [Put(JigsawStructureData), Put(VoxelShapes), Put(StartGame), Put(ItemRegistry), Flush];
    assert a[1..] == [Put(VoxelShapes), Put(StartGame), Put(ItemRegistry), Flush];
    assert a[1..][1..] == [Put(StartGame), Put(ItemRegistry), Flush];
    assert a[1..][1..][1..] == [Put(ItemRegistry), Flush] && a[1..][1..][1..][1..] == [Flush];
    assert [Flush][1..] == [];
  }

  lemma DialSettles(cfg: Config)
    requires Transferable(cfg)
    ensures Settle(cfg, Core(Init(cfg).client.gate, X0), [], DIAL) == ClientGoal(cfg, Y0)
  {
    var k := Core(Init(cfg).client.gate, X0);
    var ids := {NetworkSettingsId, PlayStatusId};
    var l := k.(gate := k.gate.(expected := ids));
    assert DIAL == [Expect(ids)] + ([Put(RequestNetworkSettings)] + ([Flush] + WAIT_SETTINGS));
    GoesMain(cfg, k, Expect(ids), [Put(RequestNetworkSettings)] + ([Flush] + WAIT_SETTINGS));
    MainWrites(cfg, l, RequestNetworkSettings, XSettings, [Flush] + WAIT_SETTINGS);
    GoesMain(cfg, l.(pos := XSettings), Flush, WAIT_SETTINGS);
  }

  lemma ServerBegins(cfg: Config)
    requires ValidConfig(cfg)
    ensures ServerOk(cfg, Init(cfg).server, X0, Y0)
  {
    EagerGame(cfg);
  }

  lemma ClientBegins(cfg: Config)
    requires ValidConfig(cfg)
    ensures ClientOk(cfg, Init(cfg).client, Y0, X0)
  {
    hide SideOk, ClientGoal, Ordered, Agreed, Settle, Eager;
    DialBegins(cfg);
  }

  lemma DialBegins(cfg: Config)
    requires Transferable(cfg)
    ensures SideOk(cfg, Init(cfg).client, X0, ClientGoal(cfg, Y0))
  {
    hide Settle, Eager, Idle;
    EagerDial();
    DialSettles(cfg);
  }

  lemma InitOk(cfg: Config)
    requires ValidConfig(cfg)
    ensures Inv(cfg, Init(cfg), Marks(X0, Y0, Y0, X0))
  {
    ServerBegins(cfg);
    ClientBegins(cfg);
  }
}
