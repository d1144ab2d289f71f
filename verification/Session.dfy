/**
 * A dialer and a listener of the library, connected by two ordered byte streams, from the first packet to the spawn.
 *
 * Each side is one Conn with its goroutines: the reader that decodes batches and runs handlers, the flusher, the goroutine
 * that dials or that calls StartGame, and on the dialer one goroutine for every pack. A handler is a list of operations
 * that other goroutines may run between; everything the code does under one lock, or that no other goroutine can see, is
 * one step. A schedule is any sequence of actors.
 */
module Session {
  import opened Wire
  import opened Packs

  datatype Mode = Plain | Compressed | Encrypted

  datatype Packet =
    // from the dialer
    | RequestNetworkSettings
    | Login
    | ClientToServerHandshake
    | ClientCacheStatus
    | SendPacks(names: seq<Name>)
    | AllPacksDownloaded
    | Completed
    | ChunkRequest(id: nat, index: nat)
    | RequestChunkRadius
    | SetLocalPlayerAsInitialised
    // from the listener
    | NetworkSettings
    | ServerToClientHandshake
    | LoginSuccess
    | ResourcePacksInfo(packs: seq<Pack>)
    | DataInfo(id: nat, chunk: nat, size: nat)
    | ChunkData(id: nat, index: nat, data: Bytes)
    | ResourcePackStack(packs: seq<Pack>)
    | DimensionData
    | JigsawStructureData
    | VoxelShapes
    | StartGame
    | ItemRegistry
    | ChunkRadiusUpdated
    | PlayerSpawn
    | CreativeContent
    // from either side: whatever the handler of a packet ID returns an error for
    | Malformed(kind: Kind)

  /** Packet IDs, where several packets above share one. */
  datatype Kind =
    | RequestNetworkSettingsId | LoginId | ClientToServerHandshakeId | ClientCacheStatusId
    | ResourcePackClientResponseId | ChunkRequestId | RequestChunkRadiusId | SetLocalPlayerId
    | NetworkSettingsId | ServerToClientHandshakeId | PlayStatusId | ResourcePacksInfoId | DataInfoId | ChunkDataId
    | ResourcePackStackId | DimensionDataId | JigsawStructureDataId | VoxelShapesId | StartGameId | ItemRegistryId
    | ChunkRadiusUpdatedId | CreativeContentId

  function KindOf(p: Packet): Kind
  {
    match p
    case RequestNetworkSettings => RequestNetworkSettingsId
    case Login => LoginId
    case ClientToServerHandshake => ClientToServerHandshakeId
    case ClientCacheStatus => ClientCacheStatusId
    case SendPacks(_) => ResourcePackClientResponseId
    case AllPacksDownloaded => ResourcePackClientResponseId
    case Completed => ResourcePackClientResponseId
    case ChunkRequest(_, _) => ChunkRequestId
    case RequestChunkRadius => RequestChunkRadiusId
    case SetLocalPlayerAsInitialised => SetLocalPlayerId
    case NetworkSettings => NetworkSettingsId
    case ServerToClientHandshake => ServerToClientHandshakeId
    case LoginSuccess => PlayStatusId
    case PlayerSpawn => PlayStatusId
    case ResourcePacksInfo(_) => ResourcePacksInfoId
    case DataInfo(_, _, _) => DataInfoId
    case ChunkData(_, _, _) => ChunkDataId
    case ResourcePackStack(_) => ResourcePackStackId
    case DimensionData => DimensionDataId
    case JigsawStructureData => JigsawStructureDataId
    case VoxelShapes => VoxelShapesId
    case StartGame => StartGameId
    case ItemRegistry => ItemRegistryId
    case ChunkRadiusUpdated => ChunkRadiusUpdatedId
    case CreativeContent => CreativeContentId
    case Malformed(kind) => kind
  }

  /** One atomic step of a handler, of Dial, or of StartGame. */
  datatype Op =
    | Expect(ids: set<Kind>)
    | Put(p: Packet)
    | Flush
    | Enc(mode: Mode)                  // EnableCompression on the encoder
    | Dec(mode: Mode)                  // EnableCompression on the decoder
    | Crypt                            // enablePacketEncryption: both, under one lock
    | Authenticate
    | LogIn
    | Ready
    | Waiting(on: bool)
    | Received(on: bool)
    | Spawn                            // close(conn.spawn)
    | Deliver(id: nat, data: Bytes)    // pack.newFrag <- data
    | Signal                           // the reader hands over to the goroutine that dials or accepts
    | Await                            // and that goroutine waits for it

  /** Where the goroutine of one download is. */
  datatype Routine =
    | Asking(k: nat)                   // about to write request k
    | Listening(k: nat)                // waiting for fragment k
    | Storing(k: nat, frag: Bytes)     // about to append it
    | Finishing                        // about to take packMu
    | Gone

  /** A downloadingPack in awaitingPacks, with its goroutine. */
  datatype Download = Download(size: nat, chunk: nat, index: nat, buf: Bytes, at: Routine)

  /** What decides how the next packet is treated, and what a login has come to. */
  datatype Gate = Gate(
    expected: set<Kind>, enc: Mode, dec: Mode,
    authenticated: bool, ready: bool, loggedIn: bool, waiting: bool, received: bool, spawns: nat)

  /**
   * resourcePackQueue and the packs of a Conn. The listener uses pending, current and offset; the dialer uses amount,
   * announced (downloadingPacks), downloads (awaitingPacks), and rest, what the goroutine that saw no pack left has yet
   * to do.
   */
  datatype Queue = Queue(
    pending: map<nat, Pack>, current: Option<Pack>, offset: nat,
    amount: int, announced: set<nat>, downloads: map<nat, Download>, rest: seq<Op>,
    ignored: seq<Name>, held: seq<Pack>)

  /**
   * The fields of Conn, with what its goroutines have left to do. Written holds every packet ever written, handled every
   * packet whose handler ran.
   */
  datatype Conn = Conn(
    gate: Gate, queue: Queue, buffer: seq<Packet>, written: seq<Packet>,
    inbox: seq<Packet>, deferred: seq<Packet>, handled: seq<Packet>, todo: seq<Op>, main: seq<Op>, failed: bool)

  /**
   * The packs a listener holds, the dialer's verdicts and what it asks for because of them, and the order in which the
   * listener sends that, which is Go's order of a map.
   */
  datatype Config = Config(
    packs: seq<Pack>, verdicts: seq<Verdict>, names: seq<Name>, order: seq<Pack>,
    chunk: nat, encrypted: bool, dimensions: bool)

  datatype Batch = Batch(mode: Mode, packets: seq<Packet>)

  datatype State = State(server: Conn, client: Conn, up: seq<Batch>, down: seq<Batch>)

  // --------------------------------------------------------------- handlers

  /** What a handler makes of the queue, which only its own goroutine can see, and its steps; or the error it returns. */
  datatype Handling = Does(q: Queue, ops: seq<Op>) | Errs

  /** The listener's next pack: Go picks any key of the map, here the first one in the order of the configuration. */
  function NextPack(order: seq<Pack>, pending: map<nat, Pack>): Option<Pack>
  {
    if order == [] then None
    else if order[0].id in pending then Some(pending[order[0].id])
    else NextPack(order[1..], pending)
  }

  /** nextResourcePackDownload. */
  function Advance(cfg: Config, q: Queue, before: seq<Op>): Handling
  {
    match NextPack(cfg.order, q.pending)
    case None => Errs
    case Some(p) =>
      Does(q.(pending := q.pending - {p.id}, current := Some(p), offset := 0),
           before + [Put(DataInfo(p.id, cfg.chunk, |p.content|)), Expect({ChunkRequestId}), Flush])
  }

  function Min(a: int, b: int): int { if a < b then a else b }

  /** ReadAt of one chunk: what is left at the offset, up to the chunk size. */
  function ReadAt(content: Bytes, offset: nat, chunk: nat): Bytes
  {
    if offset >= |content| then [] else content[offset..Min(offset + chunk, |content|)]
  }

  function HandleChunkRequest(cfg: Config, q: Queue, id: nat, index: nat): Handling
  {
    if q.current.None? || q.current.value.id != id || q.offset != index * cfg.chunk then Errs
    else
      var content := q.current.value.content;
      var data := ReadAt(content, q.offset, cfg.chunk);
      var q' := q.(offset := q.offset + cfg.chunk);
      var ops := [Put(ChunkData(id, index, data)), Flush];
      if q.offset + |data| < |content| then Does(q', ops + [Flush])
      else if q.pending != map[] then Advance(cfg, q', ops)
      else Does(q', ops + [Expect({ResourcePackClientResponseId}), Flush])
  }

  function LoginDone(cfg: Config): seq<Op>
  {
    [Authenticate, Expect({ResourcePackClientResponseId, ClientCacheStatusId}),
     Put(LoginSuccess), Put(ResourcePacksInfo(cfg.packs)), Flush]
  }

  function HandleSendPacks(cfg: Config, q: Queue, names: seq<Name>): Handling
  {
    if names == [] then Does(q, [Flush])
    else
      match Request(cfg.packs, names)
      case None => Errs
      case Some(m) => Advance(cfg, q.(pending := m), [])
  }

  /** The handlers of packets sent to the listener. */
  function HandleUp(cfg: Config, g: Gate, q: Queue, p: Packet): Handling
  {
    match p
    case RequestNetworkSettings =>
      Does(q, [Expect({LoginId}), Put(NetworkSettings), Flush, Enc(Compressed), Dec(Compressed), Flush])
    case Login =>
      if cfg.encrypted then
        Does(q, [Expect({ClientToServerHandshakeId}), Put(ServerToClientHandshake), Flush, Crypt, Flush])
      else Does(q, LoginDone(cfg))
    case ClientToServerHandshake => Does(q, LoginDone(cfg))
    case SendPacks(names) => HandleSendPacks(cfg, q, names)
    case AllPacksDownloaded => Does(q, [Put(ResourcePackStack(cfg.packs)), Flush])
    case Completed => Does(q, [LogIn, Flush] + if g.loggedIn then [] else [Signal])
    case ChunkRequest(id, index) => HandleChunkRequest(cfg, q, id, index)
    case RequestChunkRadius =>
      Does(q, [Expect({SetLocalPlayerId}), Put(ChunkRadiusUpdated), Put(PlayerSpawn), Put(CreativeContent), Flush])
    case SetLocalPlayerAsInitialised =>
      Does(q, (if g.waiting then [Waiting(false), Spawn] else []) + [Flush])
    case Malformed(_) => Errs
    case _ => Does(q, [Flush])
  }

  /** tryFinaliseClientConn. */
  function Finalise(waiting: bool, received: bool): seq<Op>
  {
    if waiting && received then [Waiting(false), Received(false), Spawn, LogIn, Put(SetLocalPlayerAsInitialised)]
    else []
  }

  /** The flush behind every handler; then listenConn tells Dial if the packet logged the connection in. */
  function Connected(g: Gate, done: seq<Op>): seq<Op>
  {
    done + [Flush] + if done != [] && !g.loggedIn then [Signal] else []
  }

  function Ids(names: seq<Name>): set<nat>
  {
    set j | 0 <= j < |names| :: names[j].id
  }

  function HandlePacksInfo(cfg: Config, q: Queue, packs: seq<Pack>): Handling
  {
    var sorting := Sort(packs, cfg.verdicts);
    var q' := q.(amount := sorting.amount, announced := Ids(sorting.wanted), downloads := map[],
                 ignored := q.ignored + sorting.ignored, held := q.held + sorting.cached);
    if sorting.wanted != [] then
      Does(q', [Expect({DataInfoId, ChunkDataId, PlayStatusId}), Put(SendPacks(sorting.wanted)), Flush])
    else Does(q', [Expect({ResourcePackStackId, PlayStatusId}), Put(AllPacksDownloaded), Flush])
  }

  function HandleDataInfo(q: Queue, id: nat, chunk: nat, size: nat): Handling
  {
    if id !in q.announced || chunk == 0 then Errs
    else
      Does(q.(announced := q.announced - {id},
              downloads := q.downloads[id := Download.Download(size, chunk, 0, [], Asking(0))]), [Flush])
  }

  function HandleChunkData(q: Queue, id: nat, index: nat, data: Bytes): Handling
  {
    if id !in q.downloads then Errs
    else
      var d := q.downloads[id];
      if |d.buf| + d.chunk < d.size && |data| != d.chunk then Errs
      else if index != d.index then Errs
      else Does(q.(downloads := q.downloads[id := d.(index := index + 1)]), [Deliver(id, data), Flush])
  }

  function HandleStack(q: Queue, packs: seq<Pack>): Handling
  {
    if Accepts(q.ignored, q.held, packs) then
      Does(q, [Expect({DimensionDataId, StartGameId}), Put(Completed), Flush])
    else Errs
  }

  /** The handlers of packets sent to the dialer. */
  function HandleDown(cfg: Config, g: Gate, q: Queue, p: Packet): Handling
  {
    match p
    case NetworkSettings =>
      Does(q, [Enc(Compressed), Dec(Compressed), Ready, Flush] + if g.ready then [] else [Signal])
    case ServerToClientHandshake => Does(q, [Crypt, Put(ClientToServerHandshake), Flush])
    case LoginSuccess => Does(q, [Put(ClientCacheStatus), Flush, Flush])
    case ResourcePacksInfo(packs) => HandlePacksInfo(cfg, q, packs)
    case DataInfo(id, chunk, size) => HandleDataInfo(q, id, chunk, size)
    case ChunkData(id, index, data) => HandleChunkData(q, id, index, data)
    case ResourcePackStack(packs) => HandleStack(q, packs)
    case StartGame => Does(q, [Expect({ItemRegistryId}), Flush])
    case ItemRegistry => Does(q, [Put(RequestChunkRadius), Expect({ChunkRadiusUpdatedId, PlayStatusId}), Flush])
    case ChunkRadiusUpdated =>
      Does(q, [Expect({PlayStatusId, ResourcePacksInfoId}), Received(true)] + Connected(g, Finalise(g.waiting, true)))
    case PlayerSpawn => Does(q, [Waiting(true)] + Connected(g, Finalise(true, g.received)))
    case Malformed(_) => Errs
    case _ => Does(q, [Flush])
  }

  /** Conn.receive: once logged in everything is deferred, before that everything unexpected. */
  predicate Defers(g: Gate, p: Packet)
  {
    (g.loggedIn && !g.waiting) || KindOf(p) !in g.expected
  }

  function Receive(cfg: Config, c: Conn, up: bool): Conn
    requires c.inbox != []
  {
    var p, c' := c.inbox[0], c.(inbox := c.inbox[1..]);
    if Defers(c.gate, p) then c'.(deferred := c.deferred + [p])
    else
      match if up then HandleUp(cfg, c.gate, c.queue, p) else HandleDown(cfg, c.gate, c.queue, p)
      case Does(q, ops) => c'.(queue := q, todo := ops, handled := c.handled + [p])
      case Errs => c'.(failed := true)
  }

  // ------------------------------------------------------------------- steps

  function Shift(g: Gate, op: Op): Gate
  {
    match op
    case Expect(ids) => g.(expected := ids)
    case Enc(m) => g.(enc := m)
    case Dec(m) => g.(dec := m)
    case Crypt => g.(enc := Encrypted, dec := Encrypted)
    case Authenticate => g.(authenticated := true)
    case LogIn => g.(loggedIn := true)
    case Ready => g.(ready := true)
    case Waiting(on) => g.(waiting := on)
    case Received(on) => g.(received := on)
    case Spawn => g.(spawns := g.spawns + 1)
    case _ => g
  }

  /** One operation, apart from those that concern another goroutine or the wire. */
  function Perform(c: Conn, op: Op): Conn
  {
    if op.Put? then c.(buffer := c.buffer + [op.p], written := c.written + [op.p])
    else c.(gate := Shift(c.gate, op))
  }

  /** Conn.Flush: what is buffered leaves as one batch, in the encoder's mode of this moment. */
  function Sent(c: Conn, wire: seq<Batch>): seq<Batch>
  {
    if c.buffer == [] then wire else wire + [Batch(c.gate.enc, c.buffer)]
  }

  function Emptied(c: Conn): Conn { c.(buffer := []) }

  predicate CanDecode(c: Conn, wire: seq<Batch>)
  {
    !c.failed && c.todo == [] && c.inbox == [] && wire != []
  }

  /** The reader takes a batch. One that was encoded under another mode does not decode. */
  function Decode(c: Conn, b: Batch): Conn
  {
    if b.mode == c.gate.dec then c.(inbox := b.packets) else c.(failed := true)
  }

  predicate CanReceive(c: Conn) { !c.failed && c.todo == [] && c.inbox != [] }

  /** Whether the goroutine that fetches a pack listens on the channel of its fragments. */
  predicate Listens(q: Queue, id: nat) { id in q.downloads && q.downloads[id].at.Listening? }

  predicate CanStep(c: Conn)
  {
    && c.todo != []
    && (c.todo[0].Signal? ==> c.main != [] && c.main[0].Await?)
    && (c.todo[0].Deliver? ==> Listens(c.queue, c.todo[0].id))
  }

  /** The reader's next operation, but for a flush. */
  function Step(c: Conn): Conn
    requires CanStep(c)
  {
    var op := c.todo[0];
    var c' := c.(todo := c.todo[1..]);
    match op
    case Signal => c'.(main := c.main[1..])
    case Deliver(id, data) => c'.(queue := Handed(c.queue, id, data))
    case _ => Perform(c', op)
  }

  /** The goroutine of a download has received a fragment. */
  function Handed(q: Queue, id: nat, data: Bytes): Queue
    requires Listens(q, id)
  {
    var d := q.downloads[id];
    q.(downloads := q.downloads[id := d.(at := Storing(d.at.k, data))])
  }

  predicate CanMain(c: Conn) { c.main != [] && !c.main[0].Await? }

  function MainStep(c: Conn): Conn
    requires CanMain(c)
  {
    Perform(c.(main := c.main[1..]), c.main[0])
  }

  /** How many chunks the dialer counts in a download. */
  function Chunks(size: nat, chunk: nat): nat
    requires chunk > 0
  {
    size / chunk + if size % chunk != 0 then 1 else 0
  }

  /** resource.Read: the pack whose archive was downloaded. */
  function ReadPack(packs: seq<Pack>, content: Bytes): Option<Pack>
  {
    if packs == [] then None
    else if packs[0].content == content then Some(packs[0])
    else ReadPack(packs[1..], content)
  }

  predicate CanFetch(q: Queue, id: nat)
  {
    id in q.downloads && q.downloads[id].chunk > 0 && !q.downloads[id].at.Gone? && !q.downloads[id].at.Listening?
  }

  function At(q: Queue, id: nat, d: Download): Queue { q.(downloads := q.downloads[id := d]) }

  /** One step of the goroutine of a download. */
  function FetchStep(cfg: Config, c: Conn, id: nat): Conn
    requires CanFetch(c.queue, id)
  {
    var d := c.queue.downloads[id];
    match d.at
    case Asking(k) =>
      if k < Chunks(d.size, d.chunk) then
        Perform(c.(queue := At(c.queue, id, d.(at := Listening(k)))), Put(ChunkRequest(id, k)))
      else c.(queue := At(c.queue, id, d.(at := Finishing)))
    case Storing(k, frag) => c.(queue := At(c.queue, id, d.(buf := d.buf + frag, at := Asking(k + 1))))
    case Finishing => c.(queue := Finish(cfg, c.queue, id))
    case _ => c
  }

  /** The critical section at the end of a download, and what follows for the goroutine that sees no pack left. */
  function Finish(cfg: Config, q: Queue, id: nat): Queue
    requires id in q.downloads
  {
    var d := q.downloads[id];
    var q' := At(q, id, d.(at := Gone));
    var read := ReadPack(cfg.packs, d.buf);
    if |d.buf| != d.size || read.None? then q'
    else
      q'.(amount := q.amount - 1, held := q.held + [read.value],
          rest := q.rest + if q.amount == 1 then ANNOUNCE else [])
  }

  const ANNOUNCE: seq<Op> := [Expect({ResourcePackStackId, PlayStatusId}), Put(AllPacksDownloaded)]

  predicate CanRest(c: Conn) { c.queue.rest != [] }

  function RestStep(c: Conn): Conn
    requires CanRest(c)
  {
    Perform(c.(queue := c.queue.(rest := c.queue.rest[1..])), c.queue.rest[0])
  }

  /** Who acts next. On either side: the flusher, the reader in its three states, and the goroutine that dials or serves. */
  datatype Actor =
    | ServerFlush | ServerDecode | ServerReceive | ServerStep | ServerMain
    | ClientFlush | ClientDecode | ClientReceive | ClientStep | ClientMain
    | Fetch(id: nat) | Rest

  predicate Enabled(cfg: Config, s: State, a: Actor)
  {
    match a
    case ServerFlush => s.server.buffer != []
    case ServerDecode => CanDecode(s.server, s.up)
    case ServerReceive => CanReceive(s.server)
    case ServerStep => CanStep(s.server)
    case ServerMain => CanMain(s.server)
    case ClientFlush => s.client.buffer != []
    case ClientDecode => CanDecode(s.client, s.down)
    case ClientReceive => CanReceive(s.client)
    case ClientStep => CanStep(s.client)
    case ClientMain => CanMain(s.client)
    case Fetch(id) => CanFetch(s.client.queue, id)
    case Rest => CanRest(s.client)
  }

  /** A flush as a step of some goroutine: it also empties the buffer. */
  function FlushUp(s: State, c: Conn): State { s.(client := Emptied(c), up := Sent(c, s.up)) }
  function FlushDown(s: State, c: Conn): State { s.(server := Emptied(c), down := Sent(c, s.down)) }

  function Act(cfg: Config, s: State, a: Actor): State
    requires Enabled(cfg, s, a)
  {
    match a
    case ServerFlush => FlushDown(s, s.server)
    case ServerDecode => s.(server := Decode(s.server, s.up[0]), up := s.up[1..])
    case ServerReceive => s.(server := Receive(cfg, s.server, true))
    case ServerStep =>
      if s.server.todo[0].Flush? then FlushDown(s, Step(s.server)) else s.(server := Step(s.server))
    case ServerMain =>
      if s.server.main[0].Flush? then FlushDown(s, MainStep(s.server)) else s.(server := MainStep(s.server))
    case ClientFlush => FlushUp(s, s.client)
    case ClientDecode => s.(client := Decode(s.client, s.down[0]), down := s.down[1..])
    case ClientReceive => s.(client := Receive(cfg, s.client, false))
    case ClientStep =>
      if s.client.todo[0].Flush? then FlushUp(s, Step(s.client)) else s.(client := Step(s.client))
    case ClientMain =>
      if s.client.main[0].Flush? then FlushUp(s, MainStep(s.client)) else s.(client := MainStep(s.client))
    case Fetch(id) => s.(client := FetchStep(cfg, s.client, id))
    case Rest => s.(client := RestStep(s.client))
  }

  // -------------------------------------------------------------------- runs

  /** DialContextNetwork after newConn. */
  const DIAL: seq<Op> := [
    Expect({NetworkSettingsId, PlayStatusId}), Put(RequestNetworkSettings), Flush, Await,
    Expect({ServerToClientHandshakeId, PlayStatusId, ResourcePacksInfoId}), Put(Login), Flush, Await]

  /** StartGameContext, called with the connection that Accept returned. */
  function Game(cfg: Config): seq<Op>
  {
    [Waiting(true), Expect({RequestChunkRadiusId, SetLocalPlayerId})]
    + (if cfg.dimensions then [Put(DimensionData)] else [])
    + [Put(JigsawStructureData), Put(VoxelShapes), Put(StartGame), Put(ItemRegistry), Flush]
  }

  function NewConn(expected: set<Kind>, main: seq<Op>, held: seq<Pack>): Conn
  {
    Conn(Gate(expected, Plain, Plain, false, false, false, false, false, 0),
         Queue(map[], None, 0, 0, {}, map[], [], [], held), [], [], [], [], [], [], main, false)
  }

  function Init(cfg: Config): State
  {
    State(NewConn({RequestNetworkSettingsId, LoginId}, [Await] + Game(cfg), cfg.packs),
          NewConn({RequestNetworkSettingsId}, DIAL, []), [], [])
  }

  /** The state after a schedule. An actor that cannot move lets the others go on. */
  function Run(cfg: Config, schedule: seq<Actor>): State
  {
    if schedule == [] then Init(cfg)
    else
      var s := Run(cfg, schedule[..|schedule| - 1]);
      var a := schedule[|schedule| - 1];
      if Enabled(cfg, s, a) then Act(cfg, s, a) else s
  }
}
