/**
 * The two scripts of a login: what each side writes, in order, and how far each side's writes can be ahead of what it has
 * read. Positions of both scripts are values of one type.
 */
module SessionScript {
  import opened Wire
  import opened Packs
  import opened Session

  /** After the packet of the name; X for packets of the dialer, Y for packets of the listener. */
  datatype Pos =
    | X0 | XSettings | XLogin | XHandshake | XCache | XSend | XRequest(i: nat, k: nat) | XAll | XCompleted | XRadius | XDone
    | Y0 | YSettings | YHandshake | YStatus | YInfo | YData(i: nat) | YChunk(i: nat, k: nat) | YStack
    | YDimension | YJigsaw | YVoxel | YStart | YItems | YRadius | YSpawn | YDone

  /** Packs that can be transferred: distinct, and with something to transfer. */
  predicate Transferable(cfg: Config)
  {
    && cfg.chunk > 0
    && (forall i, j | 0 <= i < j < |cfg.order| :: cfg.order[i].id != cfg.order[j].id)
    && (forall j | 0 <= j < |cfg.order| :: cfg.order[j].content != [])
  }

  /** An archive cut into chunks, front to back. */
  function Pieces(content: Bytes, chunk: nat): (pieces: seq<Bytes>)
    requires chunk > 0
    ensures content != [] ==> pieces != []
    decreases |content|
  {
    if content == [] then []
    else [content[..Min(chunk, |content|)]] + Pieces(content[Min(chunk, |content|)..], chunk)
  }

  function Count(cfg: Config, i: nat): (n: nat)
    requires cfg.chunk > 0 && i < |cfg.order|
  {
    |Pieces(cfg.order[i].content, cfg.chunk)|
  }

  /** Chunk k of the i-th pack sent. */
  function Chunk(cfg: Config, i: nat, k: nat): Bytes
    requires cfg.chunk > 0 && i < |cfg.order| && k < Count(cfg, i)
  {
    Pieces(cfg.order[i].content, cfg.chunk)[k]
  }

  predicate On(cfg: Config, p: Pos)
    requires cfg.chunk > 0
  {
    match p
    case XHandshake => cfg.encrypted
    case YHandshake => cfg.encrypted
    case XSend => cfg.order != []
    case XRequest(i, k) => i < |cfg.order| && k < Count(cfg, i)
    case YData(i) => i < |cfg.order|
    case YChunk(i, k) => i < |cfg.order| && k < Count(cfg, i)
    case YDimension => cfg.dimensions
    case _ => true
  }

  datatype Turn = End | Turn(packet: Packet, next: Pos)

  /** The next packet of a script. */
  function Next(cfg: Config, p: Pos): Turn
    requires Transferable(cfg) && On(cfg, p)
  {
    if Up(p) then NextUp(cfg, p)
    else if p.YData? || p.YChunk? then NextChunk(cfg, p)
    else if Stage(p) <= 4 then NextInfo(cfg, p)
    else NextGame(cfg, p)
  }

  /** The dialer's script. */
  function NextUp(cfg: Config, p: Pos): Turn
    requires Transferable(cfg) && On(cfg, p) && Up(p)
  {
    match p
    case X0 => Turn(RequestNetworkSettings, XSettings)
    case XSettings => Turn(Login, XLogin)
    case XLogin => if cfg.encrypted then Turn(ClientToServerHandshake, XHandshake) else Turn(ClientCacheStatus, XCache)
    case XHandshake => Turn(ClientCacheStatus, XCache)
    case XCache => if cfg.order == [] then Turn(AllPacksDownloaded, XAll) else Turn(SendPacks(cfg.names), XSend)
    case XSend => Turn(ChunkRequest(cfg.order[0].id, 0), XRequest(0, 0))
    case XRequest(i, k) =>
      if k + 1 < Count(cfg, i) then Turn(ChunkRequest(cfg.order[i].id, k + 1), XRequest(i, k + 1))
      else if i + 1 < |cfg.order| then Turn(ChunkRequest(cfg.order[i + 1].id, 0), XRequest(i + 1, 0))
      else Turn(AllPacksDownloaded, XAll)
    case XAll => Turn(Completed, XCompleted)
    case XCompleted => Turn(RequestChunkRadius, XRadius)
    case XRadius => Turn(SetLocalPlayerAsInitialised, XDone)
    case XDone => End
  }

  /** The listener's script, up to the first pack. */
  function NextInfo(cfg: Config, p: Pos): Turn
    requires Transferable(cfg) && !Up(p) && Stage(p) <= 4
  {
    match p
    case Y0 => Turn(NetworkSettings, YSettings)
    case YSettings => if cfg.encrypted then Turn(ServerToClientHandshake, YHandshake) else Turn(LoginSuccess, YStatus)
    case YHandshake => Turn(LoginSuccess, YStatus)
    case YStatus => Turn(ResourcePacksInfo(cfg.packs), YInfo)
    case YInfo =>
      if cfg.order == [] then Turn(ResourcePackStack(cfg.packs), YStack) else Turn(InfoOf(cfg, 0), YData(0))
  }

  /** The transfer: a pack's data info, then its chunks. */
  function NextChunk(cfg: Config, p: Pos): Turn
    requires Transferable(cfg) && On(cfg, p) && (p.YData? || p.YChunk?)
  {
    var k := if p.YChunk? then p.k + 1 else 0;
    if k < Count(cfg, p.i) then Turn(DataOf(cfg, p.i, k), YChunk(p.i, k))
    else if p.i + 1 < |cfg.order| then Turn(InfoOf(cfg, p.i + 1), YData(p.i + 1))
    else Turn(ResourcePackStack(cfg.packs), YStack)
  }

  /** From the stack on. */
  function NextGame(cfg: Config, p: Pos): Turn
    requires !Up(p) && Stage(p) > 5
  {
    match p
    case YStack => if cfg.dimensions then Turn(DimensionData, YDimension) else Turn(JigsawStructureData, YJigsaw)
    case YDimension => Turn(JigsawStructureData, YJigsaw)
    case YJigsaw => Turn(VoxelShapes, YVoxel)
    case YVoxel => Turn(StartGame, YStart)
    case YStart => Turn(ItemRegistry, YItems)
    case YItems => Turn(ChunkRadiusUpdated, YRadius)
    case YRadius => Turn(PlayerSpawn, YSpawn)
    case YSpawn => Turn(CreativeContent, YDone)
    case YDone => End
  }

  function InfoOf(cfg: Config, i: nat): Packet
    requires i < |cfg.order|
  {
    DataInfo(cfg.order[i].id, cfg.chunk, |cfg.order[i].content|)
  }

  function DataOf(cfg: Config, i: nat, k: nat): Packet
    requires cfg.chunk > 0 && i < |cfg.order| && k < Count(cfg, i)
  {
    ChunkData(cfg.order[i].id, k, Chunk(cfg, i, k))
  }

  lemma CountPositive(cfg: Config, i: nat)
    requires Transferable(cfg) && i < |cfg.order|
    ensures Count(cfg, i) > 0
  {
  }

  // ------------------------------------------------------------------ chunks

  function Concat(pieces: seq<Bytes>): Bytes
  {
    if pieces == [] then [] else pieces[0] + Concat(pieces[1..])
  }

  /** Put together again, the chunks are the archive. */
  lemma {:induction false} PiecesConcat(content: Bytes, chunk: nat)
    requires chunk > 0
    ensures Concat(Pieces(content, chunk)) == content
    decreases |content|
  {
    if content != [] {
      var n := Min(chunk, |content|);
      PiecesConcat(content[n..], chunk);
      assert Pieces(content, chunk)[1..] == Pieces(content[n..], chunk);
      assert content[..n] + content[n..] == content;
    }
  }

  /** There are as many chunks as the dialer counts, and what the listener reads for a request is the chunk asked for. */
  lemma {:induction false} PiecesAreReads(content: Bytes, chunk: nat)
    requires chunk > 0
    ensures |Pieces(content, chunk)| == Chunks(|content|, chunk)
    ensures forall k | 0 <= k < |Pieces(content, chunk)| :: Pieces(content, chunk)[k] == ReadAt(content, k * chunk, chunk)
    decreases |content|
  {
    if |content| <= chunk {
      OneChunk(|content|, chunk);
      if content != [] {
        assert content[|content|..] == [] && content[..|content|] == content;
        assert Pieces(content, chunk) == [content] + Pieces([], chunk);
        assert content[0..Min(0 + chunk, |content|)] == content;
      }
    } else {
      var rest := content[chunk..];
      PiecesAreReads(rest, chunk);
      OneChunkMore(|content|, chunk);
      forall k | 0 <= k < |Pieces(content, chunk)|
        ensures Pieces(content, chunk)[k] == ReadAt(content, k * chunk, chunk)
      {
        if k > 0 {
          assert Pieces(content, chunk)[k] == Pieces(rest, chunk)[k - 1];
          assert k * chunk == (k - 1) * chunk + chunk;
          ReadAtRest(content, chunk, (k - 1) * chunk);
        }
      }
    }
  }

  lemma OneChunk(size: nat, chunk: nat)
    requires chunk > 0 && size <= chunk
    ensures Chunks(size, chunk) == if size == 0 then 0 else 1
  {
    if size < chunk { SmallMod(size, chunk); }
  }

  lemma OneChunkMore(size: nat, chunk: nat)
    requires 0 < chunk <= size
    ensures Chunks(size, chunk) == Chunks(size - chunk, chunk) + 1
  {
    var q, r := (size - chunk) / chunk, (size - chunk) % chunk;
    assert size == (q + 1) * chunk + r;
    DivUnique(size, chunk, q + 1, r);
  }

  lemma ReadAtRest(content: Bytes, chunk: nat, offset: nat)
    requires chunk < |content|
    ensures ReadAt(content, offset + chunk, chunk) == ReadAt(content[chunk..], offset, chunk)
  {
  }

  /** Whether a chunk is the last can be told from its index and from its length alike; no chunk is empty. */
  lemma {:induction false} PieceEnds(content: Bytes, chunk: nat, k: nat)
    requires chunk > 0 && k < |Pieces(content, chunk)|
    ensures var n := |Pieces(content, chunk)[k]|;
      && 0 <= k * chunk < |content| && 0 < n <= chunk
      && (k + 1 < |Pieces(content, chunk)| ==> n == chunk && k * chunk + chunk < |content|)
      && (k + 1 == |Pieces(content, chunk)| ==> k * chunk + n == |content|)
    decreases |content|
  {
    var rest := content[Min(chunk, |content|)..];
    if k > 0 {
      PieceEnds(rest, chunk, k - 1);
      assert k * chunk == (k - 1) * chunk + chunk;
    } else if rest == [] {
      assert Pieces(rest, chunk) == [];
    }
  }

  lemma ChunkEnds(cfg: Config, i: nat, k: nat)
    requires Transferable(cfg) && i < |cfg.order| && k < Count(cfg, i)
    ensures var size := |cfg.order[i].content|; var offset := k * cfg.chunk; var n := |Chunk(cfg, i, k)|;
      && Chunk(cfg, i, k) == ReadAt(cfg.order[i].content, offset, cfg.chunk)
      && 0 <= offset < size && 0 < n <= cfg.chunk
      && (k + 1 < Count(cfg, i) ==> n == cfg.chunk && offset + cfg.chunk < size)
      && (k + 1 == Count(cfg, i) ==> offset + n == size)
  {
    PiecesAreReads(cfg.order[i].content, cfg.chunk);
    PieceEnds(cfg.order[i].content, cfg.chunk, k);
  }

  lemma NextOn(cfg: Config, p: Pos)
    requires Transferable(cfg) && On(cfg, p) && Next(cfg, p).Turn?
    ensures On(cfg, Next(cfg, p).next) && Later(p, Next(cfg, p).next)
  {
    hide Count, DataOf, InfoOf;
    if p.XSend? || p.YData? || p.XRequest? {
      CountPositive(cfg, if p.XSend? then 0 else p.i);
      if p.XRequest? && p.i + 1 < |cfg.order| { CountPositive(cfg, p.i + 1); }
    }
  }

  // --------------------------------------------------------- order of positions

  function Stage(p: Pos): nat
  {
    match p
    case X0 => 0 case XSettings => 1 case XLogin => 2 case XHandshake => 3 case XCache => 4 case XSend => 5
    case XRequest(_, _) => 6 case XAll => 7 case XCompleted => 8 case XRadius => 9 case XDone => 10
    case Y0 => 0 case YSettings => 1 case YHandshake => 2 case YStatus => 3 case YInfo => 4
    case YData(_) => 5 case YChunk(_, _) => 5 case YStack => 6 case YDimension => 7 case YJigsaw => 8 case YVoxel => 9
    case YStart => 10 case YItems => 11 case YRadius => 12 case YSpawn => 13 case YDone => 14
  }

  predicate Up(p: Pos)
  {
    match p
    case X0 => true case XSettings => true case XLogin => true case XHandshake => true case XCache => true
    case XSend => true case XRequest(_, _) => true case XAll => true case XCompleted => true case XRadius => true
    case XDone => true
    case _ => false
  }

  /** Which pack, and which chunk of it, plus one: zero before the first. */
  function Turns(p: Pos): nat { if p.XRequest? || p.YData? || p.YChunk? then p.i else 0 }
  function Part(p: Pos): nat { if p.XRequest? || p.YChunk? then p.k + 1 else 0 }

  /** Lexicographic: the stage, then the pack, then the part of it. */
  predicate Before(stage: nat, pack: nat, part: nat, stage': nat, pack': nat, part': nat)
  {
    stage < stage' || (stage == stage' && (pack < pack' || (pack == pack' && part < part')))
  }

  predicate Later(p: Pos, q: Pos)
  {
    Up(p) == Up(q) && Before(Stage(p), Turns(p), Part(p), Stage(q), Turns(q), Part(q))
  }

  predicate AtMost(p: Pos, q: Pos) { p == q || Later(p, q) }

  // -------------------------------------------------------------------- paths

  /** Packets that take a script from one position to another. */
  predicate Path(cfg: Config, p: Pos, packets: seq<Packet>, q: Pos)
    requires Transferable(cfg)
    decreases |packets|
  {
    && On(cfg, p)
    && if packets == [] then p == q
       else Next(cfg, p).Turn? && Next(cfg, p).packet == packets[0] && Path(cfg, Next(cfg, p).next, packets[1..], q)
  }

  lemma {:induction false} PathForward(cfg: Config, p: Pos, packets: seq<Packet>, q: Pos)
    requires Transferable(cfg) && Path(cfg, p, packets, q)
    ensures On(cfg, q) && AtMost(p, q) && (packets != [] ==> Later(p, q))
    decreases |packets|
  {
    if packets != [] {
      NextOn(cfg, p);
      PathForward(cfg, Next(cfg, p).next, packets[1..], q);
    }
  }

  /** One more packet at the end. */
  lemma {:induction false} PathGrows(cfg: Config, p: Pos, packets: seq<Packet>, q: Pos)
    requires Transferable(cfg) && Path(cfg, p, packets, q) && On(cfg, q) && Next(cfg, q).Turn?
    ensures Path(cfg, p, packets + [Next(cfg, q).packet], Next(cfg, q).next)
    decreases |packets|
  {
    var more := packets + [Next(cfg, q).packet];
    if packets == [] {
      NextOn(cfg, q);
      assert more[1..] == [];
    } else {
      assert more[1..] == packets[1..] + [Next(cfg, q).packet];
      PathGrows(cfg, Next(cfg, p).next, packets[1..], q);
    }
  }
}
