/** The two scripts from beginning to end, as sequences of packets. */
module SessionScripts {
  import opened Wire
  import opened Packs
  import opened Session
  import opened SessionScript
  import opened SessionFetchSteps

  /** The requests for the first k chunks of the i-th pack. */
  function Asks(cfg: Config, i: nat, k: nat): seq<Packet>
    requires i < |cfg.order|
  {
    if k == 0 then [] else Asks(cfg, i, k - 1) + [ChunkRequest(cfg.order[i].id, k - 1)]
  }

  /** The requests for the packs from the i-th on, chunk by chunk. */
  function Requests(cfg: Config, i: nat): seq<Packet>
    requires Transferable(cfg) && i <= |cfg.order|
    decreases |cfg.order| - i
  {
    if i == |cfg.order| then [] else Asks(cfg, i, Count(cfg, i)) + Requests(cfg, i + 1)
  }

  /** The first k chunks of the i-th pack. */
  function Sends(cfg: Config, i: nat, k: nat): seq<Packet>
    requires Transferable(cfg) && i < |cfg.order| && k <= Count(cfg, i)
  {
    if k == 0 then [] else Sends(cfg, i, k - 1) + [DataOf(cfg, i, k - 1)]
  }

  /** The packs from the i-th on: what each is, then its chunks. */
  function Deliveries(cfg: Config, i: nat): seq<Packet>
    requires Transferable(cfg) && i <= |cfg.order|
    decreases |cfg.order| - i
  {
    if i == |cfg.order| then []
    else [InfoOf(cfg, i)] + Sends(cfg, i, Count(cfg, i)) + Deliveries(cfg, i + 1)
  }

  /** Everything the dialer writes. */
  function UpScript(cfg: Config): seq<Packet>
    requires Transferable(cfg)
  {
    [RequestNetworkSettings, Login] + (if cfg.encrypted then [ClientToServerHandshake] else []) + [ClientCacheStatus]
    + (if cfg.order == [] then [] else [SendPacks(cfg.names)] + Requests(cfg, 0))
    + [AllPacksDownloaded, Completed, RequestChunkRadius, SetLocalPlayerAsInitialised]
  }

  /** Everything the listener writes. */
  function DownScript(cfg: Config): seq<Packet>
    requires Transferable(cfg)
  {
    [NetworkSettings] + (if cfg.encrypted then [ServerToClientHandshake] else [])
    + [LoginSuccess, ResourcePacksInfo(cfg.packs)] + Deliveries(cfg, 0) + [ResourcePackStack(cfg.packs)]
    + (if cfg.dimensions then [DimensionData] else [])
    + [JigsawStructureData, VoxelShapes, StartGame, ItemRegistry, ChunkRadiusUpdated, PlayerSpawn, CreativeContent]
  }

  lemma {:induction false} PathJoin(cfg: Config, p: Pos, a: seq<Packet>, q: Pos, b: seq<Packet>, r: Pos)
    requires Transferable(cfg) && Path(cfg, p, a, q) && Path(cfg, q, b, r)
    ensures Path(cfg, p, a + b, r)
    decreases |a|
  {
    if a == [] {
      assert a + b == b;
    } else {
      assert (a + b)[1..] == a[1..] + b;
      PathJoin(cfg, Next(cfg, p).next, a[1..], q, b, r);
    }
  }

  lemma PathJoin3(cfg: Config, p: Pos, a: seq<Packet>, q: Pos, b: seq<Packet>, r: Pos, c: seq<Packet>, t: Pos)
    requires Transferable(cfg) && Path(cfg, p, a, q) && Path(cfg, q, b, r) && Path(cfg, r, c, t)
    ensures Path(cfg, p, a + b + c, t)
  {
    PathJoin(cfg, p, a, q, b, r);
    PathJoin(cfg, p, a + b, r, c, t);
  }

  lemma PathOne(cfg: Config, p: Pos, packet: Packet, q: Pos)
    requires Transferable(cfg) && On(cfg, p) && Next(cfg, p) == Turn(packet, q)
    ensures Path(cfg, p, [packet], q)
  {
    NextOn(cfg, p);
    assert [packet][1..] == [];
  }

  /** A script goes one way only: whatever was written is the beginning of everything that will be. */
  lemma {:induction false} PathPrefix(cfg: Config, p: Pos, a: seq<Packet>, q: Pos, b: seq<Packet>, r: Pos)
    requires Transferable(cfg) && Path(cfg, p, a, q) && Path(cfg, p, b, r) && On(cfg, r) && Next(cfg, r).End?
    ensures a <= b && (q == r ==> a == b)
    decreases |a|
  {
    if a == [] {
      if p == r { assert b == []; }
    } else {
      assert b != [];
      PathPrefix(cfg, Next(cfg, p).next, a[1..], q, b[1..], r);
      assert a == [a[0]] + a[1..] && b == [b[0]] + b[1..];
    }
  }

  /** Before the first request of the i-th pack. */
  function Prior(cfg: Config, i: nat): Pos
    requires Transferable(cfg) && i <= |cfg.order|
  {
    if i == 0 then XSend else XRequest(i - 1, Count(cfg, i - 1) - 1)
  }

  lemma {:induction false} PackRequests(cfg: Config, i: nat, k: nat)
    requires Transferable(cfg) && i < |cfg.order| && 0 < k <= Count(cfg, i)
    ensures Path(cfg, Prior(cfg, i), Asks(cfg, i, k), XRequest(i, k - 1))
  {
    if i > 0 { CountPositive(cfg, i - 1); }
    if k == 1 {
      NextRequest(cfg, i, 0, Prior(cfg, i));
      PathGrows(cfg, Prior(cfg, i), [], Prior(cfg, i));
    } else {
      PackRequests(cfg, i, k - 1);
      PathGrows(cfg, Prior(cfg, i), Asks(cfg, i, k - 1), XRequest(i, k - 2));
    }
  }

  lemma {:induction false} AllRequests(cfg: Config, i: nat)
    requires Transferable(cfg) && i <= |cfg.order| && cfg.order != []
    ensures Path(cfg, Prior(cfg, i), Requests(cfg, i), Prior(cfg, |cfg.order|))
    decreases |cfg.order| - i
  {
    if i == |cfg.order| {
      CountPositive(cfg, i - 1);
    } else {
      CountPositive(cfg, i);
      PackRequests(cfg, i, Count(cfg, i));
      AllRequests(cfg, i + 1);
      PathJoin(cfg, Prior(cfg, i), Asks(cfg, i, Count(cfg, i)), Prior(cfg, i + 1), Requests(cfg, i + 1),
               Prior(cfg, |cfg.order|));
    }
  }

  lemma UpBegins(cfg: Config)
    requires Transferable(cfg)
    ensures Path(cfg, X0, [RequestNetworkSettings, Login]
                          + (if cfg.encrypted then [ClientToServerHandshake] else []) + [ClientCacheStatus], XCache)
  {
    var h := if cfg.encrypted then XHandshake else XLogin;
    var shake := if cfg.encrypted then [ClientToServerHandshake] else [];
    PathOne(cfg, X0, RequestNetworkSettings, XSettings);
    PathOne(cfg, XSettings, Login, XLogin);
    PathJoin(cfg, X0, [RequestNetworkSettings], XSettings, [Login], XLogin);
    assert [RequestNetworkSettings] + [Login] == [RequestNetworkSettings, Login];
    if cfg.encrypted { PathOne(cfg, XLogin, ClientToServerHandshake, XHandshake); }
    PathJoin(cfg, X0, [RequestNetworkSettings, Login], XLogin, shake, h);
    PathOne(cfg, h, ClientCacheStatus, XCache);
    PathJoin(cfg, X0, [RequestNetworkSettings, Login] + shake, h, [ClientCacheStatus], XCache);
  }

  lemma UpEnds(cfg: Config, p: Pos)
    requires Transferable(cfg) && On(cfg, p) && Next(cfg, p) == Turn(AllPacksDownloaded, XAll)
    ensures Path(cfg, p, [AllPacksDownloaded, Completed, RequestChunkRadius, SetLocalPlayerAsInitialised], XDone)
  {
    PathOne(cfg, p, AllPacksDownloaded, XAll);
    PathOne(cfg, XAll, Completed, XCompleted);
    PathJoin(cfg, p, [AllPacksDownloaded], XAll, [Completed], XCompleted);
    PathOne(cfg, XCompleted, RequestChunkRadius, XRadius);
    PathOne(cfg, XRadius, SetLocalPlayerAsInitialised, XDone);
    PathJoin(cfg, XCompleted, [RequestChunkRadius], XRadius, [SetLocalPlayerAsInitialised], XDone);
    var a, b := [AllPacksDownloaded] + [Completed], [RequestChunkRadius] + [SetLocalPlayerAsInitialised];
    PathJoin(cfg, p, a, XCompleted, b, XDone);
    assert a + b == [AllPacksDownloaded, Completed, RequestChunkRadius, SetLocalPlayerAsInitialised];
  }

  lemma UpIsPath(cfg: Config)
    requires Transferable(cfg)
    ensures Path(cfg, X0, UpScript(cfg), XDone)
  {
    var start := [RequestNetworkSettings, Login]
                 + (if cfg.encrypted then [ClientToServerHandshake] else []) + [ClientCacheStatus];
    var middle := if cfg.order == [] then [] else [SendPacks(cfg.names)] + Requests(cfg, 0);
    var end := [AllPacksDownloaded, Completed, RequestChunkRadius, SetLocalPlayerAsInitialised];
    var q := if cfg.order == [] then XCache else Prior(cfg, |cfg.order|);
    UpBegins(cfg);
    if cfg.order != [] {
      PathOne(cfg, XCache, SendPacks(cfg.names), XSend);
      AllRequests(cfg, 0);
      PathJoin(cfg, XCache, [SendPacks(cfg.names)], XSend, Requests(cfg, 0), q);
      CountPositive(cfg, |cfg.order| - 1);
    }
    PathJoin(cfg, X0, start, XCache, middle, q);
    UpEnds(cfg, q);
    PathJoin(cfg, X0, start + middle, q, end, XDone);
  }

  /** Before the data info of the i-th pack. */
  function PriorInfo(cfg: Config, i: nat): Pos
    requires Transferable(cfg) && i <= |cfg.order|
  {
    if i == 0 then YInfo else YChunk(i - 1, Count(cfg, i - 1) - 1)
  }

  lemma {:induction false} PackChunks(cfg: Config, i: nat, k: nat)
    requires Transferable(cfg) && i < |cfg.order| && 0 < k <= Count(cfg, i)
    ensures Path(cfg, YData(i), Sends(cfg, i, k), YChunk(i, k - 1))
  {
    if k == 1 {
      PathGrows(cfg, YData(i), [], YData(i));
    } else {
      PackChunks(cfg, i, k - 1);
      PathGrows(cfg, YData(i), Sends(cfg, i, k - 1), YChunk(i, k - 2));
    }
  }

  lemma OnePack(cfg: Config, i: nat)
    requires Transferable(cfg) && i < |cfg.order|
    ensures Path(cfg, PriorInfo(cfg, i), [InfoOf(cfg, i)] + Sends(cfg, i, Count(cfg, i)), PriorInfo(cfg, i + 1))
  {
    if i > 0 { CountPositive(cfg, i - 1); }
    CountPositive(cfg, i);
    PathOne(cfg, PriorInfo(cfg, i), InfoOf(cfg, i), YData(i));
    PackChunks(cfg, i, Count(cfg, i));
    PathJoin(cfg, PriorInfo(cfg, i), [InfoOf(cfg, i)], YData(i), Sends(cfg, i, Count(cfg, i)), PriorInfo(cfg, i + 1));
  }

  lemma {:induction false} AllTransfers(cfg: Config, i: nat)
    requires Transferable(cfg) && i <= |cfg.order|
    ensures Path(cfg, PriorInfo(cfg, i), Deliveries(cfg, i), PriorInfo(cfg, |cfg.order|))
    decreases |cfg.order| - i
  {
    if i < |cfg.order| {
      OnePack(cfg, i);
      AllTransfers(cfg, i + 1);
      OnePackMore(cfg, i);
    } else {
      NoPackMore(cfg);
    }
  }

  lemma NoPackMore(cfg: Config)
    requires Transferable(cfg)
    ensures Path(cfg, PriorInfo(cfg, |cfg.order|), Deliveries(cfg, |cfg.order|), PriorInfo(cfg, |cfg.order|))
  {
    if cfg.order != [] { CountPositive(cfg, |cfg.order| - 1); }
  }

  lemma OnePackMore(cfg: Config, i: nat)
    requires Transferable(cfg) && i < |cfg.order|
    requires Path(cfg, PriorInfo(cfg, i), [InfoOf(cfg, i)] + Sends(cfg, i, Count(cfg, i)), PriorInfo(cfg, i + 1))
    requires Path(cfg, PriorInfo(cfg, i + 1), Deliveries(cfg, i + 1), PriorInfo(cfg, |cfg.order|))
    ensures Path(cfg, PriorInfo(cfg, i), Deliveries(cfg, i), PriorInfo(cfg, |cfg.order|))
  {
    PathJoin(cfg, PriorInfo(cfg, i), [InfoOf(cfg, i)] + Sends(cfg, i, Count(cfg, i)), PriorInfo(cfg, i + 1),
             Deliveries(cfg, i + 1), PriorInfo(cfg, |cfg.order|));
  }

  lemma DownBegins(cfg: Config)
    requires Transferable(cfg)
    ensures Path(cfg, Y0, [NetworkSettings] + (if cfg.encrypted then [ServerToClientHandshake] else [])
                          + [LoginSuccess, ResourcePacksInfo(cfg.packs)], YInfo)
  {
    var h := if cfg.encrypted then YHandshake else YSettings;
    var shake := if cfg.encrypted then [ServerToClientHandshake] else [];
    PathOne(cfg, Y0, NetworkSettings, YSettings);
    if cfg.encrypted { PathOne(cfg, YSettings, ServerToClientHandshake, YHandshake); }
    PathJoin(cfg, Y0, [NetworkSettings], YSettings, shake, h);
    PathOne(cfg, h, LoginSuccess, YStatus);
    PathOne(cfg, YStatus, ResourcePacksInfo(cfg.packs), YInfo);
    PathJoin(cfg, h, [LoginSuccess], YStatus, [ResourcePacksInfo(cfg.packs)], YInfo);
    assert [LoginSuccess] + [ResourcePacksInfo(cfg.packs)] == [LoginSuccess, ResourcePacksInfo(cfg.packs)];
    PathJoin(cfg, Y0, [NetworkSettings] + shake, h, [LoginSuccess, ResourcePacksInfo(cfg.packs)], YInfo);
  }

  lemma ShapesPath(cfg: Config, p: Pos)
    requires Transferable(cfg) && p == (if cfg.dimensions then YDimension else YStack)
    ensures Path(cfg, p, [JigsawStructureData] + [VoxelShapes], YVoxel)
  {
    PathOne(cfg, p, JigsawStructureData, YJigsaw);
    PathOne(cfg, YJigsaw, VoxelShapes, YVoxel);
    PathJoin(cfg, p, [JigsawStructureData], YJigsaw, [VoxelShapes], YVoxel);
  }

  lemma ItemsPath(cfg: Config)
    requires Transferable(cfg)
    ensures Path(cfg, YVoxel, [StartGame] + [ItemRegistry], YItems)
  {
    PathOne(cfg, YVoxel, StartGame, YStart);
    PathOne(cfg, YStart, ItemRegistry, YItems);
    PathJoin(cfg, YVoxel, [StartGame], YStart, [ItemRegistry], YItems);
  }

  lemma SpawnIsPath(cfg: Config)
    requires Transferable(cfg)
    ensures Path(cfg, YItems, [ChunkRadiusUpdated, PlayerSpawn, CreativeContent], YDone)
  {
    PathOne(cfg, YItems, ChunkRadiusUpdated, YRadius);
    PathOne(cfg, YRadius, PlayerSpawn, YSpawn);
    PathJoin(cfg, YItems, [ChunkRadiusUpdated], YRadius, [PlayerSpawn], YSpawn);
    PathOne(cfg, YSpawn, CreativeContent, YDone);
    PathJoin(cfg, YItems, [ChunkRadiusUpdated] + [PlayerSpawn], YSpawn, [CreativeContent], YDone);
    assert [ChunkRadiusUpdated] + [PlayerSpawn] + [CreativeContent]
      == [ChunkRadiusUpdated, PlayerSpawn, CreativeContent];
  }

  const GAME: seq<Packet> :=
    [JigsawStructureData, VoxelShapes, StartGame, ItemRegistry, ChunkRadiusUpdated, PlayerSpawn, CreativeContent]

  lemma GameIsPath(cfg: Config, p: Pos)
    requires Transferable(cfg) && p == (if cfg.dimensions then YDimension else YStack)
    ensures Path(cfg, p, GAME, YDone)
  {
    assert GAME == ([JigsawStructureData] + [VoxelShapes]) + ([StartGame] + [ItemRegistry])
                   + [ChunkRadiusUpdated, PlayerSpawn, CreativeContent];
    ShapesPath(cfg, p);
    ItemsPath(cfg);
    SpawnIsPath(cfg);
    PathJoin3(cfg, p, [JigsawStructureData] + [VoxelShapes], YVoxel, [StartGame] + [ItemRegistry], YItems,
              [ChunkRadiusUpdated, PlayerSpawn, CreativeContent], YDone);
  }

  lemma StackIsPath(cfg: Config)
    requires Transferable(cfg)
    ensures Path(cfg, PriorInfo(cfg, |cfg.order|), [ResourcePackStack(cfg.packs)], YStack)
  {
    if cfg.order != [] { CountPositive(cfg, |cfg.order| - 1); }
    PathOne(cfg, PriorInfo(cfg, |cfg.order|), ResourcePackStack(cfg.packs), YStack);
  }

  lemma DimensionIsPath(cfg: Config)
    requires Transferable(cfg)
    ensures Path(cfg, YStack, if cfg.dimensions then [DimensionData] else [],
                 if cfg.dimensions then YDimension else YStack)
  {
    if cfg.dimensions { PathOne(cfg, YStack, DimensionData, YDimension); }
  }

  lemma DownIsPath(cfg: Config)
    requires Transferable(cfg)
    ensures Path(cfg, Y0, DownScript(cfg), YDone)
  {
    var start := [NetworkSettings] + (if cfg.encrypted then [ServerToClientHandshake] else [])
                 + [LoginSuccess, ResourcePacksInfo(cfg.packs)];
    var q, d := PriorInfo(cfg, |cfg.order|), if cfg.dimensions then YDimension else YStack;
    var packs, stack := Deliveries(cfg, 0), [ResourcePackStack(cfg.packs)];
    var dims := if cfg.dimensions then [DimensionData] else [];
    assert DownScript(cfg) == start + packs + stack + dims + GAME;
    DownBegins(cfg);
    AllTransfers(cfg, 0);
    StackIsPath(cfg);
    DimensionIsPath(cfg);
    GameIsPath(cfg, d);
    PathJoin3(cfg, Y0, start, YInfo, packs, q, stack, YStack);
    PathJoin3(cfg, Y0, start + packs + stack, YStack, dims, d, GAME, YDone);
  }
}
