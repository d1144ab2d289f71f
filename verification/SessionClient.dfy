/** The dialer's side outside the transfer of packs: where it stands for every position of the packets it has handled. */
module SessionClient {
  import opened Wire
  import opened Packs
  import opened Session
  import opened SessionScript
  import opened SessionSettle
  import opened SessionSide

  /** How far the dialer writes once it has handled the listener's packets up to a position. */
  function Answer(cfg: Config, y: Pos): Pos
    requires Transferable(cfg) && On(cfg, y) && !Up(y)
  {
    match y
    case Y0 => XSettings
    case YSettings => XLogin
    case YHandshake => XHandshake
    case YStatus => XCache
    case YInfo => if cfg.order == [] then XAll else XSend
    case YData(i) => XRequest(i, 0)
    case YChunk(i, k) =>
      if k + 1 < Count(cfg, i) then XRequest(i, k + 1) else if i + 1 < |cfg.order| then XRequest(i, k) else XAll
    case YItems => XRadius
    case YRadius => XRadius
    case YSpawn => XDone
    case YDone => XDone
    case _ => XCompleted
  }

  /** In the transfer the download goroutines decide how far the dialer is. */
  predicate Transfers(y: Pos) { y.YData? || y.YChunk? }

  function ClientExpects(cfg: Config, y: Pos): set<Kind>
  {
    match y
    case Y0 => {NetworkSettingsId, PlayStatusId}
    case YSettings => {ServerToClientHandshakeId, PlayStatusId, ResourcePacksInfoId}
    case YHandshake => {ServerToClientHandshakeId, PlayStatusId, ResourcePacksInfoId}
    case YStatus => {ServerToClientHandshakeId, PlayStatusId, ResourcePacksInfoId}
    case YInfo => if cfg.order == [] then {ResourcePackStackId, PlayStatusId} else FETCHING
    case YData(_) => FETCHING
    case YChunk(_, _) => FETCHING
    case YStart => {ItemRegistryId}
    case YItems => {ChunkRadiusUpdatedId, PlayStatusId}
    case YRadius => {PlayStatusId, ResourcePacksInfoId}
    case YSpawn => {PlayStatusId, ResourcePacksInfoId}
    case YDone => {PlayStatusId, ResourcePacksInfoId}
    case _ => {DimensionDataId, StartGameId}
  }

  const FETCHING: set<Kind> := {DataInfoId, ChunkDataId, PlayStatusId}

  function ClientMode(cfg: Config, y: Pos): Mode
  {
    if y.Y0? then Plain else if y.YSettings? then Compressed else FinalMode(cfg)
  }

  function ClientGate(cfg: Config, y: Pos): Gate
  {
    Gate(ClientExpects(cfg, y), ClientMode(cfg, y), ClientMode(cfg, y),
         false, Stage(y) >= 1, Stage(y) >= 13, false, y.YRadius?, if Stage(y) >= 13 then 1 else 0)
  }

  /** What is left of Dial: it waits for the network settings, then for the login. */
  function ClientRest(y: Pos): seq<Op>
  {
    if y.Y0? then WAIT_SETTINGS else if Stage(y) < 13 then [Await] else []
  }

  const LOGIN: seq<Op> :=
    [Expect({ServerToClientHandshakeId, PlayStatusId, ResourcePacksInfoId})] + ([Put(Login)] + ([Flush] + [Await]))
  const WAIT_SETTINGS: seq<Op> := [Await] + LOGIN

  function ClientGoal(cfg: Config, y: Pos): Settled
    requires Transferable(cfg) && On(cfg, y) && !Up(y)
  {
    Settled(Core(ClientGate(cfg, y), Answer(cfg, y)), ClientRest(y))
  }

  // ------------------------------------------------------ the packs of a dialer

  /** The packs of the order are those the dialer wants, and the archives tell them apart. */
  predicate Agreed(cfg: Config)
  {
    && cfg.names == Sort(cfg.packs, cfg.verdicts).wanted
    && |cfg.names| == |cfg.order|
    && Ids(cfg.names) == IdsFrom(cfg, 0)
    && (forall j | 0 <= j < |cfg.order| :: ReadPack(cfg.packs, cfg.order[j].content) == Some(cfg.order[j]))
  }

  /** The dialer will accept the stack, once it holds what it wants. */
  predicate Acceptable(cfg: Config)
  {
    Accepts(Sort(cfg.packs, cfg.verdicts).ignored, Sort(cfg.packs, cfg.verdicts).cached + cfg.order, cfg.packs)
  }

  /** The packs of the order from the i-th on. */
  function IdsFrom(cfg: Config, i: nat): set<nat>
  {
    set j | i <= j < |cfg.order| :: cfg.order[j].id
  }

  /** Before and right after the announcement of the packs. */
  predicate Unannounced(q: Queue)
  {
    q.ignored == [] && q.held == [] && q.rest == [] && q.downloads == map[] && q.amount == 0
  }

  predicate Announced(cfg: Config, q: Queue)
  {
    var s := Sort(cfg.packs, cfg.verdicts);
    && q.amount == |cfg.order| && q.announced == Ids(cfg.names) && q.downloads == map[]
    && q.ignored == s.ignored && q.held == s.cached && q.rest == []
  }

  /** The queue outside the transfer. */
  predicate QuietQueue(cfg: Config, q: Queue, y: Pos)
  {
    q.rest == []
    && (Stage(y) < 4 ==> Unannounced(q))
    && (y.YInfo? ==> Announced(cfg, q))
  }

  // ----------------------------------------------------------------- handlers

  /** The packets the user gets to see. */
  predicate ForUser(p: Packet) { p.JigsawStructureData? || p.VoxelShapes? || p.CreativeContent? }

  /** The handler of the next packet does not fail, and leads to where the dialer then stands. */
  predicate ClientHandles(cfg: Config, g: Gate, q: Queue, pos: Pos, main: seq<Op>, p: Packet, y': Pos)
    requires Transferable(cfg) && On(cfg, y') && !Up(y')
  {
    var h := HandleDown(cfg, g, q, p);
    && h.Does?
    && QuietQueue(cfg, h.q, y')
    && Guarded(h.ops) && SignalsLast(h.ops)
    && Settle(cfg, Core(g, pos), h.ops, main) == ClientGoal(cfg, y')
  }

  lemma ClientDoes(cfg: Config, g: Gate, q: Queue, pos: Pos, main: seq<Op>, p: Packet, y': Pos, q': Queue, ops: seq<Op>)
    requires Transferable(cfg) && On(cfg, y') && !Up(y')
    requires HandleDown(cfg, g, q, p) == Does(q', ops)
    requires QuietQueue(cfg, q', y') && Guarded(ops) && SignalsLast(ops)
    requires Settle(cfg, Core(g, pos), ops, main) == ClientGoal(cfg, y')
    ensures ClientHandles(cfg, g, q, pos, main, p, y')
  {
  }

  lemma HandlesNetworkSettings(cfg: Config, q: Queue)
    requires Transferable(cfg) && QuietQueue(cfg, q, Y0)
    ensures ClientHandles(cfg, ClientGate(cfg, Y0), q, XSettings, WAIT_SETTINGS, NetworkSettings, YSettings)
  {
    var g := ClientGate(cfg, Y0);
    var h := g.(enc := Compressed, dec := Compressed, ready := true);
    var k, l := Core(g, XSettings), Core(h, XSettings);
    var ops := [Enc(Compressed), Dec(Compressed), Ready, Flush] + [Signal];
    ReadySettles(cfg, k, WAIT_SETTINGS);
    assert WAIT_SETTINGS[1..] == LOGIN;
    LoginSettles(cfg, l);
  }

  lemma ReadySettles(cfg: Config, k: Core, main: seq<Op>)
    requires Transferable(cfg) && main != [] && Blocked(main)
    ensures Settle(cfg, k, [Enc(Compressed), Dec(Compressed), Ready, Flush] + [Signal], main) ==
            Settle(cfg, k.(gate := k.gate.(enc := Compressed, dec := Compressed, ready := true)), [], main[1..])
  {
    var b := k.(gate := k.gate.(enc := Compressed));
    var c := b.(gate := b.gate.(dec := Compressed));
    var d := c.(gate := c.gate.(ready := true));
    assert [Enc(Compressed), Dec(Compressed), Ready, Flush] + [Signal]
      == [Enc(Compressed)] + ([Dec(Compressed)] + ([Ready] + ([Flush] + [Signal])));
    Goes(cfg, k, Enc(Compressed), [Dec(Compressed)] + ([Ready] + ([Flush] + [Signal])), main);
    Goes(cfg, b, Dec(Compressed), [Ready] + ([Flush] + [Signal]), main);
    Goes(cfg, c, Ready, [Flush] + [Signal], main);
    Goes(cfg, d, Flush, [Signal], main);
    assert [Signal][1..] == [];
  }

  lemma LoginSettles(cfg: Config, l: Core)
    requires Transferable(cfg) && l.pos == XSettings && l.gate.enc == Compressed
    ensures Settle(cfg, l, [], LOGIN) == Settled(
      Core(l.gate.(expected := {ServerToClientHandshakeId, PlayStatusId, ResourcePacksInfoId}), XLogin), [Await])
  {
    var ids := {ServerToClientHandshakeId, PlayStatusId, ResourcePacksInfoId};
    var m := l.(gate := l.gate.(expected := ids));
    GoesMain(cfg, l, Expect(ids), [Put(Login)] + ([Flush] + [Await]));
    MainWrites(cfg, m, Login, XLogin, [Flush] + [Await]);
    GoesMain(cfg, m.(pos := XLogin), Flush, [Await]);
  }

  lemma HandlesServerHandshake(cfg: Config, q: Queue)
    requires Transferable(cfg) && QuietQueue(cfg, q, YSettings) && cfg.encrypted
    ensures ClientHandles(cfg, ClientGate(cfg, YSettings), q, XLogin, [Await], ServerToClientHandshake, YHandshake)
  {
    var k := Core(ClientGate(cfg, YSettings), XLogin);
    HandshakeSettles(cfg, k);
    assert ClientGate(cfg, YHandshake) == k.gate.(enc := Encrypted, dec := Encrypted);
    ClientDoes(cfg, k.gate, q, XLogin, [Await], ServerToClientHandshake, YHandshake, q,
               [Crypt, Put(ClientToServerHandshake), Flush]);
  }

  lemma HandshakeSettles(cfg: Config, k: Core)
    requires Transferable(cfg) && cfg.encrypted && k.pos == XLogin
    ensures Settle(cfg, k, [Crypt, Put(ClientToServerHandshake), Flush], [Await]) ==
            Settled(Core(k.gate.(enc := Encrypted, dec := Encrypted), XHandshake), [Await])
  {
    var l := k.(gate := k.gate.(enc := Encrypted, dec := Encrypted));
    assert [Crypt, Put(ClientToServerHandshake), Flush] == [Crypt] + ([Put(ClientToServerHandshake)] + [Flush]);
    Goes(cfg, k, Crypt, [Put(ClientToServerHandshake)] + [Flush], [Await]);
    ReaderWrites(cfg, l, ClientToServerHandshake, XHandshake, [Flush], [Await]);
    ReaderFlushes(cfg, l.(pos := XHandshake), [Await]);
  }

  lemma HandlesLoginSuccess(cfg: Config, q: Queue, y: Pos)
    requires Transferable(cfg) && y == (if cfg.encrypted then YHandshake else YSettings)
    requires QuietQueue(cfg, q, y)
    ensures ClientHandles(cfg, ClientGate(cfg, y), q, Answer(cfg, y), [Await], LoginSuccess, YStatus)
  {
    var k := Core(ClientGate(cfg, y), Answer(cfg, y));
    assert [Put(ClientCacheStatus), Flush, Flush] == [Put(ClientCacheStatus)] + ([Flush] + [Flush]);
    ReaderWrites(cfg, k, ClientCacheStatus, XCache, [Flush] + [Flush], [Await]);
    Goes(cfg, k.(pos := XCache), Flush, [Flush], [Await]);
    ReaderFlushes(cfg, k.(pos := XCache), [Await]);
  }

  lemma AnnouncesPacks(cfg: Config, q: Queue)
    requires Transferable(cfg) && Agreed(cfg) && QuietQueue(cfg, q, YStatus)
    ensures var h := HandlePacksInfo(cfg, q, cfg.packs); h.Does? && Announced(cfg, h.q)
    ensures HandlePacksInfo(cfg, q, cfg.packs).ops ==
            if cfg.order == [] then [Expect({ResourcePackStackId, PlayStatusId}), Put(AllPacksDownloaded), Flush]
            else [Expect(FETCHING), Put(SendPacks(cfg.names)), Flush]
  {
    SortCounts(cfg.packs, cfg.verdicts, |cfg.packs|);
  }

  lemma HandlesAnnouncement(cfg: Config, q: Queue)
    requires Transferable(cfg) && Agreed(cfg) && QuietQueue(cfg, q, YStatus)
    ensures ClientHandles(cfg, ClientGate(cfg, YStatus), q, XCache, [Await], ResourcePacksInfo(cfg.packs), YInfo)
  {
    AnnouncesPacks(cfg, q);
    var g, h := ClientGate(cfg, YStatus), HandlePacksInfo(cfg, q, cfg.packs);
    var ids := if cfg.order == [] then {ResourcePackStackId, PlayStatusId} else FETCHING;
    var p := if cfg.order == [] then AllPacksDownloaded else SendPacks(cfg.names);
    GateThenWrite(cfg, Core(g, XCache), ids, p, Answer(cfg, YInfo));
    assert ClientGoal(cfg, YInfo) == Settled(Core(g.(expected := ids), Answer(cfg, YInfo)), [Await]);
    assert h.ops == [Expect(ids), Put(p), Flush];
    ClientDoes(cfg, g, q, XCache, [Await], ResourcePacksInfo(cfg.packs), YInfo, h.q, h.ops);
  }

  /** A handler that first says what it expects, then writes one packet. */
  lemma GateThenWrite(cfg: Config, k: Core, ids: set<Kind>, p: Packet, x: Pos)
    requires Transferable(cfg) && On(cfg, k.pos) && Next(cfg, k.pos) == Turn(p, x) && ModeOf(cfg, p) == k.gate.enc
    ensures Settle(cfg, k, [Expect(ids), Put(p), Flush], [Await]) ==
            Settled(Core(k.gate.(expected := ids), x), [Await])
    ensures Guarded([Expect(ids), Put(p), Flush]) && SignalsLast([Expect(ids), Put(p), Flush])
  {
    var l := k.(gate := k.gate.(expected := ids));
    assert [Expect(ids), Put(p), Flush] == [Expect(ids)] + ([Put(p)] + [Flush]);
    Goes(cfg, k, Expect(ids), [Put(p)] + [Flush], [Await]);
    ReaderWrites(cfg, l, p, x, [Flush], [Await]);
    ReaderFlushes(cfg, l.(pos := x), [Await]);
  }

  /** The stack, once every pack is there. */
  lemma HandlesStack(cfg: Config, g: Gate, q: Queue)
    requires Transferable(cfg) && q.rest == []
    requires Accepts(q.ignored, q.held, cfg.packs)
    requires g == ClientGate(cfg, YInfo).(expected := {ResourcePackStackId, PlayStatusId})
    ensures ClientHandles(cfg, g, q, XAll, [Await], ResourcePackStack(cfg.packs), YStack)
  {
    GateThenWrite(cfg, Core(g, XAll), {DimensionDataId, StartGameId}, Completed, XCompleted);
  }

  lemma HandlesDimension(cfg: Config, q: Queue)
    requires Transferable(cfg) && QuietQueue(cfg, q, YStack) && cfg.dimensions
    ensures ClientHandles(cfg, ClientGate(cfg, YStack), q, XCompleted, [Await], DimensionData, YDimension)
  {
    ReaderFlushes(cfg, Core(ClientGate(cfg, YStack), XCompleted), [Await]);
  }

  lemma HandlesStartGame(cfg: Config, q: Queue)
    requires Transferable(cfg) && QuietQueue(cfg, q, YVoxel)
    ensures ClientHandles(cfg, ClientGate(cfg, YVoxel), q, XCompleted, [Await], StartGame, YStart)
  {
    var k := Core(ClientGate(cfg, YVoxel), XCompleted);
    assert [Expect({ItemRegistryId}), Flush] == [Expect({ItemRegistryId})] + [Flush];
    Goes(cfg, k, Expect({ItemRegistryId}), [Flush], [Await]);
    ReaderFlushes(cfg, k.(gate := k.gate.(expected := {ItemRegistryId})), [Await]);
    ClientDoes(cfg, k.gate, q, XCompleted, [Await], StartGame, YStart, q, [Expect({ItemRegistryId}), Flush]);
  }

  lemma HandlesItems(cfg: Config, q: Queue)
    requires Transferable(cfg) && QuietQueue(cfg, q, YStart)
    ensures ClientHandles(cfg, ClientGate(cfg, YStart), q, XCompleted, [Await], ItemRegistry, YItems)
  {
    var g, ids := ClientGate(cfg, YStart), {ChunkRadiusUpdatedId, PlayStatusId};
    ItemsSettle(cfg, Core(g, XCompleted), ids);
    assert ClientGoal(cfg, YItems) == Settled(Core(g.(expected := ids), XRadius), [Await]);
    ClientDoes(cfg, g, q, XCompleted, [Await], ItemRegistry, YItems, q, [Put(RequestChunkRadius), Expect(ids), Flush]);
  }

  lemma ItemsSettle(cfg: Config, k: Core, ids: set<Kind>)
    requires Transferable(cfg) && k.pos == XCompleted && k.gate.enc == FinalMode(cfg)
    ensures Settle(cfg, k, [Put(RequestChunkRadius), Expect(ids), Flush], [Await]) ==
            Settled(Core(k.gate.(expected := ids), XRadius), [Await])
    ensures Guarded([Put(RequestChunkRadius), Expect(ids), Flush]) && SignalsLast([Put(RequestChunkRadius), Expect(ids), Flush])
  {
    assert [Put(RequestChunkRadius), Expect(ids), Flush] == [Put(RequestChunkRadius)] + ([Expect(ids)] + [Flush]);
    ReaderWrites(cfg, k, RequestChunkRadius, XRadius, [Expect(ids)] + [Flush], [Await]);
    Goes(cfg, k.(pos := XRadius), Expect(ids), [Flush], [Await]);
    ReaderFlushes(cfg, Core(k.gate.(expected := ids), XRadius), [Await]);
  }

  lemma HandlesRadiusUpdate(cfg: Config, q: Queue)
    requires Transferable(cfg) && QuietQueue(cfg, q, YItems)
    ensures ClientHandles(cfg, ClientGate(cfg, YItems), q, XRadius, [Await], ChunkRadiusUpdated, YRadius)
  {
    var g, ids := ClientGate(cfg, YItems), {PlayStatusId, ResourcePacksInfoId};
    var ops := [Expect(ids), Received(true)] + [Flush];
    assert Connected(g, Finalise(false, true)) == [Flush];
    UpdateSettles(cfg, Core(g, XRadius), ids);
    assert ClientGoal(cfg, YRadius) == Settled(Core(g.(expected := ids, received := true), XRadius), [Await]);
    ClientDoes(cfg, g, q, XRadius, [Await], ChunkRadiusUpdated, YRadius, q, ops);
  }

  lemma UpdateSettles(cfg: Config, k: Core, ids: set<Kind>)
    requires Transferable(cfg)
    ensures Settle(cfg, k, [Expect(ids), Received(true)] + [Flush], [Await]) ==
            Settled(k.(gate := k.gate.(expected := ids, received := true)), [Await])
    ensures Guarded([Expect(ids), Received(true)] + [Flush]) && SignalsLast([Expect(ids), Received(true)] + [Flush])
  {
    var l := k.(gate := k.gate.(expected := ids));
    assert [Expect(ids), Received(true)] + [Flush] == [Expect(ids)] + ([Received(true)] + [Flush]);
    Goes(cfg, k, Expect(ids), [Received(true)] + [Flush], [Await]);
    Goes(cfg, l, Received(true), [Flush], [Await]);
    ReaderFlushes(cfg, l.(gate := l.gate.(received := true)), [Await]);
  }

  const FINAL: seq<Op> := [Put(SetLocalPlayerAsInitialised)] + ([Flush] + [Signal])
  const FINALISE: seq<Op> := [Waiting(false)] + ([Received(false)] + ([Spawn] + ([LogIn] + FINAL)))

  lemma FinaliseSettles(cfg: Config, k: Core)
    requires Transferable(cfg) && k.pos == XRadius && k.gate.enc == FinalMode(cfg)
    ensures Settle(cfg, k, FINALISE, [Await]) == Settled(
      Core(k.gate.(waiting := false, received := false, spawns := k.gate.spawns + 1, loggedIn := true), XDone), [])
  {
    hide ModeOf, Settle;
    var a := k.(gate := k.gate.(waiting := false));
    var b := a.(gate := a.gate.(received := false));
    var c := b.(gate := b.gate.(spawns := k.gate.spawns + 1));
    Goes(cfg, k, Waiting(false), [Received(false)] + ([Spawn] + ([LogIn] + FINAL)), [Await]);
    Goes(cfg, a, Received(false), [Spawn] + ([LogIn] + FINAL), [Await]);
    Goes(cfg, b, Spawn, [LogIn] + FINAL, [Await]);
    Goes(cfg, c, LogIn, FINAL, [Await]);
    FinalSettles(cfg, c.(gate := c.gate.(loggedIn := true)));
  }

  lemma FinalSettles(cfg: Config, k: Core)
    requires Transferable(cfg) && k.pos == XRadius && k.gate.enc == FinalMode(cfg)
    ensures Settle(cfg, k, FINAL, [Await]) == Settled(k.(pos := XDone), [])
  {
    ReaderWrites(cfg, k, SetLocalPlayerAsInitialised, XDone, [Flush] + [Signal], [Await]);
    Goes(cfg, k.(pos := XDone), Flush, [Signal], [Await]);
    assert [Signal][1..] == [] && [Await][1..] == [];
  }

  lemma HandlesPlayerSpawn(cfg: Config, q: Queue)
    requires Transferable(cfg) && QuietQueue(cfg, q, YRadius)
    ensures ClientHandles(cfg, ClientGate(cfg, YRadius), q, XRadius, [Await], PlayerSpawn, YSpawn)
  {
    hide Transferable, Do, HandleDown;
    var g := ClientGate(cfg, YRadius);
    var h := g.(waiting := true);
    SpawnHandled(cfg, g, q);
    SpawnSettles(cfg, Core(g, XRadius));
    assert ClientGate(cfg, YSpawn) == h.(waiting := false, received := false, spawns := h.spawns + 1, loggedIn := true);
    ClientDoes(cfg, g, q, XRadius, [Await], PlayerSpawn, YSpawn, q, [Waiting(true)] + FINALISE);
  }

  lemma SpawnSettles(cfg: Config, k: Core)
    requires Transferable(cfg) && k.pos == XRadius && k.gate.enc == FinalMode(cfg)
    ensures Settle(cfg, k, [Waiting(true)] + FINALISE, [Await]) == Settled(
      Core(k.gate.(waiting := true).(waiting := false, received := false, spawns := k.gate.spawns + 1, loggedIn := true),
           XDone), [])
  {
    Goes(cfg, k, Waiting(true), FINALISE, [Await]);
    FinaliseSettles(cfg, k.(gate := k.gate.(waiting := true)));
  }

  lemma SpawnHandled(cfg: Config, g: Gate, q: Queue)
    requires !g.loggedIn && g.received
    ensures HandleDown(cfg, g, q, PlayerSpawn) == Does(q, [Waiting(true)] + FINALISE)
    ensures Guarded([Waiting(true)] + FINALISE) && SignalsLast([Waiting(true)] + FINALISE)
  {
    hide Accepts;
    assert Finalise(true, true) + [Flush] + [Signal] == FINALISE;
  }

  /** Outside the transfer, the next packet is expected and decodes, unless it is for the user. */
  lemma ClientExpectsNext(cfg: Config, y: Pos)
    requires Transferable(cfg) && On(cfg, y) && !Up(y) && Next(cfg, y).Turn?
    ensures ModeOf(cfg, Next(cfg, y).packet) == ClientGate(cfg, y).dec
    ensures !Next(cfg, y).packet.ResourcePackStack? ==>
      (Defers(ClientGate(cfg, y), Next(cfg, y).packet) <==> ForUser(Next(cfg, y).packet))
  {
  }

  lemma UserPacketsChangeNothing(cfg: Config, y: Pos)
    requires Transferable(cfg) && On(cfg, y) && !Up(y) && Next(cfg, y).Turn? && ForUser(Next(cfg, y).packet)
    ensures On(cfg, Next(cfg, y).next) && !Up(Next(cfg, y).next)
    ensures ClientGoal(cfg, Next(cfg, y).next) == ClientGoal(cfg, y)
  {
  }
}
