/** The listener's side: where it stands for every position of the packets it has handled. */
module SessionServer {
  import opened Wire
  import opened Packs
  import opened Session
  import opened SessionScript
  import opened SessionSettle
  import opened SessionSide

  /** How far the listener writes once it has handled the dialer's packets up to a position. */
  function Reply(cfg: Config, x: Pos): Pos
    requires Transferable(cfg) && On(cfg, x) && Up(x)
  {
    match x
    case X0 => Y0
    case XSettings => YSettings
    case XLogin => if cfg.encrypted then YHandshake else YInfo
    case XHandshake => YInfo
    case XCache => YInfo
    case XSend => YData(0)
    case XRequest(i, k) => if k + 1 == Count(cfg, i) && i + 1 < |cfg.order| then YData(i + 1) else YChunk(i, k)
    case XAll => YStack
    case XCompleted => YItems
    case _ => YDone
  }

  predicate LastRequest(cfg: Config, x: Pos)
    requires Transferable(cfg)
  {
    x.XRequest? && x.i + 1 == |cfg.order| && x.k + 1 == Count(cfg, x.i)
  }

  function ServerExpects(cfg: Config, x: Pos): set<Kind>
    requires Transferable(cfg)
  {
    var responses := {ResourcePackClientResponseId, ClientCacheStatusId};
    match x
    case X0 => {RequestNetworkSettingsId, LoginId}
    case XSettings => {LoginId}
    case XLogin => if cfg.encrypted then {ClientToServerHandshakeId} else responses
    case XHandshake => responses
    case XCache => responses
    case XSend => {ChunkRequestId}
    case XRequest(_, _) => if LastRequest(cfg, x) then {ResourcePackClientResponseId} else {ChunkRequestId}
    case XAll => if cfg.order == [] then responses else {ResourcePackClientResponseId}
    case XCompleted => {RequestChunkRadiusId, SetLocalPlayerId}
    case _ => {SetLocalPlayerId}
  }

  function ServerMode(cfg: Config, x: Pos): Mode
  {
    if x.X0? then Plain else if x.XSettings? then Compressed else FinalMode(cfg)
  }

  function ServerGate(cfg: Config, x: Pos): Gate
    requires Transferable(cfg)
  {
    Gate(ServerExpects(cfg, x), ServerMode(cfg, x), ServerMode(cfg, x),
         Stage(x) >= 3 || (x.XLogin? && !cfg.encrypted), false, Stage(x) >= 8, x.XCompleted? || x.XRadius?, false,
         if x.XDone? then 1 else 0)
  }

  function ServerRest(cfg: Config, x: Pos): seq<Op>
  {
    if Stage(x) >= 8 then [] else [Await] + Game(cfg)
  }

  function ServerGoal(cfg: Config, x: Pos): Settled
    requires Transferable(cfg) && On(cfg, x) && Up(x)
  {
    Settled(Core(ServerGate(cfg, x), Reply(cfg, x)), ServerRest(cfg, x))
  }

  // ---------------------------------------------------------------- the queue

  /** The packs that are still to be sent: those of the order from the j-th on. */
  predicate PendingFrom(cfg: Config, pending: map<nat, Pack>, j: nat)
  {
    && j <= |cfg.order|
    && |pending| == |cfg.order| - j
    && (forall i | 0 <= i < j :: cfg.order[i].id !in pending)
    && (forall i | j <= i < |cfg.order| :: cfg.order[i].id in pending && pending[cfg.order[i].id] == cfg.order[i])
  }

  /** The i-th pack is being sent, its next chunk is the k-th. */
  predicate Sending(cfg: Config, q: Queue, i: nat, k: nat)
  {
    && i < |cfg.order|
    && q.current == Some(cfg.order[i]) && q.offset == k * cfg.chunk && PendingFrom(cfg, q.pending, i + 1)
  }

  /** The listener's queue after it has handled the packets up to a position. */
  predicate QueueOk(cfg: Config, q: Queue, x: Pos)
    requires Transferable(cfg)
  {
    match x
    case XSend => Sending(cfg, q, 0, 0)
    case XRequest(i, k) =>
      i < |cfg.order| &&
      (if k + 1 < Count(cfg, i) then Sending(cfg, q, i, k + 1)
       else if i + 1 < |cfg.order| then Sending(cfg, q, i + 1, 0)
       else true)
    case _ => true
  }

  /** The order is one of the packs the listener finds for what the dialer asks for. */
  predicate Ordered(cfg: Config)
  {
    && |cfg.names| == |cfg.order|
    && Request(cfg.packs, cfg.names).Some?
    && PendingFrom(cfg, Request(cfg.packs, cfg.names).value, 0)
  }

  lemma {:induction false} FirstPending(order: seq<Pack>, pending: map<nat, Pack>, j: nat)
    requires j < |order| && order[j].id in pending && forall i | 0 <= i < j :: order[i].id !in pending
    ensures NextPack(order, pending) == Some(pending[order[j].id])
  {
    if j > 0 {
      FirstPending(order[1..], pending, j - 1);
    }
  }

  lemma NextPackIs(cfg: Config, pending: map<nat, Pack>, j: nat)
    requires j < |cfg.order| && PendingFrom(cfg, pending, j) && Transferable(cfg)
    ensures NextPack(cfg.order, pending) == Some(cfg.order[j])
    ensures PendingFrom(cfg, pending - {cfg.order[j].id}, j + 1)
  {
    FirstPending(cfg.order, pending, j);
    var rest := pending - {cfg.order[j].id};
    assert rest.Keys == pending.Keys - {cfg.order[j].id};
    assert |rest| == |rest.Keys| && |pending| == |pending.Keys|;
  }

  // ----------------------------------------------------------------- handlers

  /** The handler of the next packet does not fail, and leads to where the listener then stands. */
  predicate ServerHandles(cfg: Config, q: Queue, x: Pos)
    requires Transferable(cfg) && On(cfg, x) && Up(x) && Next(cfg, x).Turn? && On(cfg, Next(cfg, x).next)
  {
    var h := HandleUp(cfg, ServerGate(cfg, x), q, Next(cfg, x).packet);
    && h.Does?
    && Up(Next(cfg, x).next)
    && QueueOk(cfg, h.q, Next(cfg, x).next)
    && Guarded(h.ops) && SignalsLast(h.ops) && (h.ops != [] ==> !Switches(h.ops[0]))
    && Settle(cfg, ServerGoal(cfg, x).core, h.ops, ServerRest(cfg, x)) == ServerGoal(cfg, Next(cfg, x).next)
  }

  /** A handler whose operations settle, by a trace of them. */
  lemma ServerSettles(cfg: Config, q: Queue, x: Pos, x': Pos, ops: seq<Op>, q': Queue, ks: seq<Core>)
    requires Transferable(cfg) && On(cfg, x) && Up(x) && Next(cfg, x).Turn? && x' == Next(cfg, x).next
    requires On(cfg, x') && Up(x') && (Stage(x') < 8 || Stage(x) >= 8)
    requires HandleUp(cfg, ServerGate(cfg, x), q, Next(cfg, x).packet) == Does(q', ops)
    requires QueueOk(cfg, q', x')
    requires Guarded(ops) && SignalsLast(ops) && ops != [] && !Switches(ops[0])
    requires Trace(cfg, ks, ops)
    requires ks[0] == ServerGoal(cfg, x).core && ks[|ops|] == ServerGoal(cfg, x').core
    ensures ServerHandles(cfg, q, x)
  {
    assert ServerRest(cfg, x') == ServerRest(cfg, x) by { NextOn(cfg, x); }
    TraceSettles(cfg, ks, ops, ServerRest(cfg, x));
  }

  /** A handler whose operations are known to settle. */
  lemma ServerDoes(cfg: Config, q: Queue, x: Pos, x': Pos, ops: seq<Op>, q': Queue)
    requires Transferable(cfg) && On(cfg, x) && Up(x) && Next(cfg, x).Turn? && x' == Next(cfg, x).next
    requires On(cfg, x') && Up(x') && (Stage(x') < 8 || Stage(x) >= 8)
    requires HandleUp(cfg, ServerGate(cfg, x), q, Next(cfg, x).packet) == Does(q', ops)
    requires QueueOk(cfg, q', x')
    requires Guarded(ops) && SignalsLast(ops) && ops != [] && !Switches(ops[0])
    requires forall main | Blocked(main) ::
      Settle(cfg, ServerGoal(cfg, x).core, ops, main) == Settled(ServerGoal(cfg, x').core, main)
    ensures ServerHandles(cfg, q, x)
  {
    NextOn(cfg, x);
  }

  /** A chunk request inside a pack. */
  lemma AnswersMiddle(cfg: Config, q: Queue, i: nat, k: nat)
    requires Transferable(cfg) && Sending(cfg, q, i, k) && k + 1 < Count(cfg, i)
    ensures HandleChunkRequest(cfg, q, cfg.order[i].id, k) ==
            Does(q.(offset := (k + 1) * cfg.chunk),
                 [Put(DataOf(cfg, i, k)), Flush, Flush])
    ensures Sending(cfg, q.(offset := (k + 1) * cfg.chunk), i, k + 1)
  {
    ChunkEnds(cfg, i, k);
    assert (k + 1) * cfg.chunk == k * cfg.chunk + cfg.chunk;
  }

  function Switched(cfg: Config, q: Queue, i: nat): Queue
    requires i + 1 < |cfg.order|
  {
    q.(pending := q.pending - {cfg.order[i + 1].id}, current := Some(cfg.order[i + 1]), offset := 0)
  }

  /** The request for the last chunk of a pack that is not the last. */
  lemma AnswersEnd(cfg: Config, q: Queue, i: nat, k: nat)
    requires Transferable(cfg) && Sending(cfg, q, i, k) && k + 1 == Count(cfg, i) && i + 1 < |cfg.order|
    ensures HandleChunkRequest(cfg, q, cfg.order[i].id, k) ==
            Does(Switched(cfg, q, i),
                 [Put(DataOf(cfg, i, k)), Flush,
                  Put(InfoOf(cfg, i + 1)), Expect({ChunkRequestId}), Flush])
    ensures Sending(cfg, Switched(cfg, q, i), i + 1, 0)
  {
    ChunkEnds(cfg, i, k);
    NextPackIs(cfg, q.pending, i + 1);
    assert q.pending != map[];
  }

  /** The request for the very last chunk. */
  lemma AnswersLast(cfg: Config, q: Queue, i: nat, k: nat)
    requires Transferable(cfg) && Sending(cfg, q, i, k) && k + 1 == Count(cfg, i) && i + 1 == |cfg.order|
    ensures HandleChunkRequest(cfg, q, cfg.order[i].id, k) ==
            Does(q.(offset := q.offset + cfg.chunk),
                 [Put(DataOf(cfg, i, k)), Flush,
                  Expect({ResourcePackClientResponseId}), Flush])
  {
    hide Min;
    ChunkEnds(cfg, i, k);
    assert q.pending == map[];
  }

  /** Where a chunk request comes in the dialer's script, and what answers it. */
  predicate Requests(cfg: Config, x: Pos, i: nat, k: nat)
    requires Transferable(cfg)
  {
    && Up(x) && On(cfg, x) && i < |cfg.order| && k < Count(cfg, i)
    && Next(cfg, x) == Turn(ChunkRequest(cfg.order[i].id, k), XRequest(i, k))
    && ServerGate(cfg, x) == ServerGate(cfg, XSend)
    && On(cfg, Reply(cfg, x))
    && Next(cfg, Reply(cfg, x)) == Turn(DataOf(cfg, i, k), YChunk(i, k))
  }

  lemma HandlesMiddle(cfg: Config, q: Queue, x: Pos, i: nat, k: nat)
    requires Transferable(cfg) && Requests(cfg, x, i, k) && Sending(cfg, q, i, k) && k + 1 < Count(cfg, i)
    ensures ServerHandles(cfg, q, x)
  {
    hide Settle, Do, Sending, Count, Chunk, Pieces, ModeOf, Accepts, HandleChunkRequest;
    var core := ServerGoal(cfg, x).core;
    AnswersMiddle(cfg, q, i, k);
    forall main | Blocked(main)
      ensures Settle(cfg, core, [Put(DataOf(cfg, i, k)), Flush, Flush], main) ==
              Settled(core.(pos := YChunk(i, k)), main)
    {
      SendsMiddle(cfg, core, i, k, main);
    }
    ServerDoes(cfg, q, x, XRequest(i, k), [Put(DataOf(cfg, i, k)), Flush, Flush], q.(offset := (k + 1) * cfg.chunk));
  }

  lemma SendsMiddle(cfg: Config, core: Core, i: nat, k: nat, main: seq<Op>)
    requires Transferable(cfg) && i < |cfg.order| && k < Count(cfg, i) && Blocked(main)
    requires core.gate.enc == FinalMode(cfg)
    requires On(cfg, core.pos) && Next(cfg, core.pos) == Turn(DataOf(cfg, i, k), YChunk(i, k))
    ensures Settle(cfg, core, [Put(DataOf(cfg, i, k)), Flush, Flush], main) == Settled(core.(pos := YChunk(i, k)), main)
  {
    assert [Put(DataOf(cfg, i, k)), Flush, Flush] == [Put(DataOf(cfg, i, k))] + [Flush, Flush];
    ReaderWrites(cfg, core, DataOf(cfg, i, k), YChunk(i, k), [Flush, Flush], main);
    assert [Flush, Flush] == [Flush] + [Flush];
    Goes(cfg, core.(pos := YChunk(i, k)), Flush, [Flush], main);
    ReaderFlushes(cfg, core.(pos := YChunk(i, k)), main);
  }

  lemma HandlesEnd(cfg: Config, q: Queue, x: Pos, i: nat, k: nat)
    requires Transferable(cfg) && Requests(cfg, x, i, k) && Sending(cfg, q, i, k)
    requires k + 1 == Count(cfg, i) && i + 1 < |cfg.order|
    ensures ServerHandles(cfg, q, x)
  {
    AnswersEnd(cfg, q, i, k);
    var core := ServerGoal(cfg, x).core;
    assert ServerGoal(cfg, XRequest(i, k)).core == core.(pos := YData(i + 1));
    var ops, ks := EndOps(cfg, i, k), EndTrace(core, i, k);
    EndTraces(cfg, core, i, k);
    ServerSettles(cfg, q, x, XRequest(i, k), ops, Switched(cfg, q, i), ks);
  }

  function EndOps(cfg: Config, i: nat, k: nat): seq<Op>
    requires Transferable(cfg) && i + 1 < |cfg.order| && k < Count(cfg, i)
  {
    [Put(DataOf(cfg, i, k)), Flush, Put(InfoOf(cfg, i + 1)), Expect({ChunkRequestId}), Flush]
  }

  function EndTrace(core: Core, i: nat, k: nat): seq<Core>
  {
    var sent, told := core.(pos := YChunk(i, k)), core.(pos := YData(i + 1));
    [core, sent, sent, told, told, told]
  }

  lemma EndTraces(cfg: Config, core: Core, i: nat, k: nat)
    requires Transferable(cfg) && i + 1 < |cfg.order| && k + 1 == Count(cfg, i)
    requires core.gate.enc == FinalMode(cfg) && core.gate.expected == {ChunkRequestId}
    requires On(cfg, core.pos) && Next(cfg, core.pos) == Turn(DataOf(cfg, i, k), YChunk(i, k))
    ensures Trace(cfg, EndTrace(core, i, k), EndOps(cfg, i, k))
    ensures Guarded(EndOps(cfg, i, k)) && SignalsLast(EndOps(cfg, i, k))
  {
    var ks, ops := EndTrace(core, i, k), EndOps(cfg, i, k);
    assert Steps(cfg, ks, ops, 0);
    assert Steps(cfg, ks, ops, 1);
    assert Steps(cfg, ks, ops, 2);
    assert Steps(cfg, ks, ops, 3);
    assert Steps(cfg, ks, ops, 4);
    TraceOf(cfg, ks, ops);
  }

  lemma LastTraces(cfg: Config, a: Core, i: nat, k: nat, ops: seq<Op>, ks: seq<Core>)
    requires Transferable(cfg) && i < |cfg.order| && k < Count(cfg, i)
    requires a.gate.enc == FinalMode(cfg)
    requires On(cfg, a.pos) && Next(cfg, a.pos) == Turn(DataOf(cfg, i, k), YChunk(i, k))
    requires ops == [Put(DataOf(cfg, i, k)), Flush, Expect({ResourcePackClientResponseId}), Flush]
    requires var b := a.(pos := YChunk(i, k));
      var c := b.(gate := b.gate.(expected := {ResourcePackClientResponseId})); ks == [a, b, b, c, c]
    ensures Trace(cfg, ks, ops) && Guarded(ops) && SignalsLast(ops)
  {
    assert Steps(cfg, ks, ops, 0);
    assert Steps(cfg, ks, ops, 1);
    assert Steps(cfg, ks, ops, 2);
    assert Steps(cfg, ks, ops, 3);
    TraceOf(cfg, ks, ops);
  }

  lemma HandlesLast(cfg: Config, q: Queue, x: Pos, i: nat, k: nat)
    requires Transferable(cfg) && Requests(cfg, x, i, k) && Sending(cfg, q, i, k)
    requires k + 1 == Count(cfg, i) && i + 1 == |cfg.order|
    ensures ServerHandles(cfg, q, x)
  {
    AnswersLast(cfg, q, i, k);
    var a, c := ServerGoal(cfg, x).core, ServerGoal(cfg, XRequest(i, k)).core;
    var b := a.(pos := YChunk(i, k));
    assert c == b.(gate := b.gate.(expected := {ResourcePackClientResponseId}));
    var ops := [Put(DataOf(cfg, i, k)), Flush, Expect({ResourcePackClientResponseId}), Flush];
    LastTraces(cfg, a, i, k, ops, [a, b, b, c, c]);
    ServerSettles(cfg, q, x, XRequest(i, k), ops, q.(offset := q.offset + cfg.chunk), [a, b, b, c, c]);
  }

  /** The first two packets: the modes change behind the flush of the answer. */
  lemma HandlesSettings(cfg: Config, q: Queue)
    requires Transferable(cfg)
    ensures ServerHandles(cfg, q, X0)
  {
    var a, e := ServerGoal(cfg, X0).core, ServerGoal(cfg, XSettings).core;
    var ops := [Expect({LoginId}), Put(NetworkSettings), Flush, Enc(Compressed), Dec(Compressed), Flush];
    assert e == Core(a.gate.(expected := {LoginId}, enc := Compressed, dec := Compressed), YSettings);
    forall main | Blocked(main) ensures Settle(cfg, a, ops, main) == Settled(e, main) {
      SettingsSettle(cfg, a, main);
    }
    ServerDoes(cfg, q, X0, XSettings, ops, q);
  }

  lemma SettingsSettle(cfg: Config, a: Core, main: seq<Op>)
    requires Transferable(cfg) && Blocked(main) && a.pos == Y0 && a.gate.enc == Plain
    ensures Settle(cfg, a, [Expect({LoginId}), Put(NetworkSettings), Flush, Enc(Compressed), Dec(Compressed), Flush], main)
            == Settled(Core(a.gate.(expected := {LoginId}, enc := Compressed, dec := Compressed), YSettings), main)
  {
    var b := a.(gate := a.gate.(expected := {LoginId}));
    var c := b.(pos := YSettings);
    var ops := [Flush, Enc(Compressed), Dec(Compressed), Flush];
    assert [Expect({LoginId}), Put(NetworkSettings), Flush, Enc(Compressed), Dec(Compressed), Flush]
      == [Expect({LoginId})] + ([Put(NetworkSettings)] + ops);
    Goes(cfg, a, Expect({LoginId}), [Put(NetworkSettings)] + ops, main);
    ReaderWrites(cfg, b, NetworkSettings, YSettings, ops, main);
    ModesSettle(cfg, c, main);
  }

  lemma ModesSettle(cfg: Config, c: Core, main: seq<Op>)
    requires Transferable(cfg) && Blocked(main)
    ensures Settle(cfg, c, [Flush, Enc(Compressed), Dec(Compressed), Flush], main)
            == Settled(c.(gate := c.gate.(enc := Compressed, dec := Compressed)), main)
  {
    var d := c.(gate := c.gate.(enc := Compressed));
    assert [Flush, Enc(Compressed), Dec(Compressed), Flush]
      == [Flush] + ([Enc(Compressed)] + ([Dec(Compressed)] + [Flush]));
    Goes(cfg, c, Flush, [Enc(Compressed)] + ([Dec(Compressed)] + [Flush]), main);
    Goes(cfg, c, Enc(Compressed), [Dec(Compressed)] + [Flush], main);
    Goes(cfg, d, Dec(Compressed), [Flush], main);
    ReaderFlushes(cfg, d.(gate := d.gate.(dec := Compressed)), main);
  }

  lemma HandlesEncryptedLogin(cfg: Config, q: Queue)
    requires Transferable(cfg) && cfg.encrypted
    ensures ServerHandles(cfg, q, XSettings)
  {
    var a, e := ServerGoal(cfg, XSettings).core, ServerGoal(cfg, XLogin).core;
    var ops := [Expect({ClientToServerHandshakeId}), Put(ServerToClientHandshake), Flush, Crypt, Flush];
    assert e == Core(a.gate.(expected := {ClientToServerHandshakeId}, enc := Encrypted, dec := Encrypted), YHandshake);
    forall main | Blocked(main) ensures Settle(cfg, a, ops, main) == Settled(e, main) {
      EncryptedLoginSettles(cfg, a, main);
    }
    ServerDoes(cfg, q, XSettings, XLogin, ops, q);
  }

  lemma EncryptedLoginSettles(cfg: Config, a: Core, main: seq<Op>)
    requires Transferable(cfg) && Blocked(main) && cfg.encrypted && a.pos == YSettings && a.gate.enc == Compressed
    ensures Settle(cfg, a, [Expect({ClientToServerHandshakeId}), Put(ServerToClientHandshake), Flush, Crypt, Flush], main)
            == Settled(Core(a.gate.(expected := {ClientToServerHandshakeId}, enc := Encrypted, dec := Encrypted),
                            YHandshake), main)
  {
    var b := a.(gate := a.gate.(expected := {ClientToServerHandshakeId}));
    var c := b.(pos := YHandshake);
    var ops := [Flush] + ([Crypt] + [Flush]);
    assert [Expect({ClientToServerHandshakeId}), Put(ServerToClientHandshake), Flush, Crypt, Flush]
      == [Expect({ClientToServerHandshakeId})] + ([Put(ServerToClientHandshake)] + ops);
    Goes(cfg, a, Expect({ClientToServerHandshakeId}), [Put(ServerToClientHandshake)] + ops, main);
    ReaderWrites(cfg, b, ServerToClientHandshake, YHandshake, ops, main);
    Goes(cfg, c, Flush, [Crypt] + [Flush], main);
    Goes(cfg, c, Crypt, [Flush], main);
    ReaderFlushes(cfg, c.(gate := c.gate.(enc := Encrypted, dec := Encrypted)), main);
  }

  /** A login without encryption, and the handshake that ends one with it. */
  lemma HandlesAuthentication(cfg: Config, q: Queue, x: Pos)
    requires Transferable(cfg) && x == if cfg.encrypted then XLogin else XSettings
    ensures ServerHandles(cfg, q, x)
  {
    var x' := if cfg.encrypted then XHandshake else XLogin;
    var a, e := ServerGoal(cfg, x).core, ServerGoal(cfg, x').core;
    var b := a.(gate := a.gate.(authenticated := true));
    var c := b.(gate := b.gate.(expected := {ResourcePackClientResponseId, ClientCacheStatusId}));
    var d := c.(pos := YStatus);
    assert e == c.(pos := YInfo);
    LoginTraces(cfg, a, [a, b, c, d, e, e]);
    LoginIsGuarded(cfg);
    ServerSettles(cfg, q, x, x', LoginDone(cfg), q, [a, b, c, d, e, e]);
  }

  lemma LoginTraces(cfg: Config, a: Core, ks: seq<Core>)
    requires Transferable(cfg) && a.gate.enc == FinalMode(cfg)
    requires a.pos == if cfg.encrypted then YHandshake else YSettings
    requires var b := a.(gate := a.gate.(authenticated := true));
      var c := b.(gate := b.gate.(expected := {ResourcePackClientResponseId, ClientCacheStatusId}));
      ks == [a, b, c, c.(pos := YStatus), c.(pos := YInfo), c.(pos := YInfo)]
    ensures Trace(cfg, ks, LoginDone(cfg))
  {
    hide Trace;
    var ops := LoginDone(cfg);
    assert Steps(cfg, ks, ops, 0);
    assert Steps(cfg, ks, ops, 1);
    assert Steps(cfg, ks, ops, 2);
    assert Steps(cfg, ks, ops, 3);
    assert Steps(cfg, ks, ops, 4);
    TraceOf(cfg, ks, ops);
  }

  lemma LoginIsGuarded(cfg: Config)
    ensures Guarded(LoginDone(cfg)) && SignalsLast(LoginDone(cfg))
  {
  }

  lemma HandlesCache(cfg: Config, q: Queue, x: Pos)
    requires Transferable(cfg) && x == if cfg.encrypted then XHandshake else XLogin
    ensures ServerHandles(cfg, q, x)
  {
    var a := ServerGoal(cfg, x).core;
    var ks, ops := [a, a], [Flush];
    assert Steps(cfg, ks, ops, 0);
    TraceOf(cfg, ks, ops);
    ServerSettles(cfg, q, x, XCache, ops, q, ks);
  }

  lemma AnswersSend(cfg: Config, q: Queue) returns (q': Queue)
    requires Transferable(cfg) && Ordered(cfg) && cfg.order != []
    ensures HandleSendPacks(cfg, q, cfg.names) == Does(q', [Put(InfoOf(cfg, 0)), Expect({ChunkRequestId}), Flush])
    ensures Sending(cfg, q', 0, 0)
  {
    var m := Request(cfg.packs, cfg.names).value;
    NextPackIs(cfg, m, 0);
    q' := q.(pending := m - {cfg.order[0].id}, current := Some(cfg.order[0]), offset := 0);
    var ops := [Put(InfoOf(cfg, 0)), Expect({ChunkRequestId}), Flush];
    assert [] + ops == ops;
  }

  lemma SendTraces(cfg: Config, a: Core, ops: seq<Op>, ks: seq<Core>)
    requires Transferable(cfg) && cfg.order != [] && a.gate.enc == FinalMode(cfg) && a.pos == YInfo
    requires ops == [Put(InfoOf(cfg, 0)), Expect({ChunkRequestId}), Flush]
    requires var b := a.(pos := YData(0)); var c := b.(gate := b.gate.(expected := {ChunkRequestId})); ks == [a, b, c, c]
    ensures Trace(cfg, ks, ops) && Guarded(ops) && SignalsLast(ops)
  {
    assert Steps(cfg, ks, ops, 0);
    assert Steps(cfg, ks, ops, 1);
    assert Steps(cfg, ks, ops, 2);
    TraceOf(cfg, ks, ops);
  }

  lemma HandlesSend(cfg: Config, q: Queue)
    requires Transferable(cfg) && Ordered(cfg) && cfg.order != []
    ensures ServerHandles(cfg, q, XCache)
  {
    var q' := AnswersSend(cfg, q);
    var a, c := ServerGoal(cfg, XCache).core, ServerGoal(cfg, XSend).core;
    var b := a.(pos := YData(0));
    assert c == b.(gate := b.gate.(expected := {ChunkRequestId}));
    var ops := [Put(InfoOf(cfg, 0)), Expect({ChunkRequestId}), Flush];
    SendTraces(cfg, a, ops, [a, b, c, c]);
    ServerSettles(cfg, q, XCache, XSend, ops, q', [a, b, c, c]);
  }

  lemma HandlesAll(cfg: Config, q: Queue, x: Pos)
    requires Transferable(cfg) && On(cfg, x)
    requires if cfg.order == [] then x == XCache else LastRequest(cfg, x)
    ensures ServerHandles(cfg, q, x)
  {
    var a := ServerGoal(cfg, x).core;
    assert ServerGoal(cfg, XAll).core == a.(pos := YStack);
    var ops := [Put(ResourcePackStack(cfg.packs)), Flush];
    forall main | Blocked(main) ensures Settle(cfg, a, ops, main) == Settled(a.(pos := YStack), main) {
      assert ops == [Put(ResourcePackStack(cfg.packs))] + [Flush];
      ReaderWrites(cfg, a, ResourcePackStack(cfg.packs), YStack, [Flush], main);
      ReaderFlushes(cfg, a.(pos := YStack), main);
    }
    ServerDoes(cfg, q, x, XAll, ops, q);
  }

  const SPAWN_WRITES: seq<Op> :=
    [Put(ChunkRadiusUpdated)] + ([Put(PlayerSpawn)] + ([Put(CreativeContent)] + [Flush]))

  lemma HandlesRadius(cfg: Config, q: Queue)
    requires Transferable(cfg)
    ensures ServerHandles(cfg, q, XCompleted)
  {
    var a, e := ServerGoal(cfg, XCompleted).core, ServerGoal(cfg, XRadius).core;
    var b := a.(gate := a.gate.(expected := {SetLocalPlayerId}));
    assert e == b.(pos := YDone);
    var ops := [Expect({SetLocalPlayerId}), Put(ChunkRadiusUpdated), Put(PlayerSpawn), Put(CreativeContent), Flush];
    forall main | Blocked(main) ensures Settle(cfg, a, ops, main) == Settled(e, main) {
      assert ops == [Expect({SetLocalPlayerId})] + SPAWN_WRITES;
      Goes(cfg, a, Expect({SetLocalPlayerId}), SPAWN_WRITES, main);
      SpawnSettles(cfg, b, main);
    }
    ServerDoes(cfg, q, XCompleted, XRadius, ops, q);
  }

  lemma SpawnSettles(cfg: Config, b: Core, main: seq<Op>)
    requires Transferable(cfg) && b.gate.enc == FinalMode(cfg) && b.pos == YItems && Blocked(main)
    ensures Settle(cfg, b, SPAWN_WRITES, main) == Settled(b.(pos := YDone), main)
  {
    ReaderWrites(cfg, b, ChunkRadiusUpdated, YRadius, [Put(PlayerSpawn)] + ([Put(CreativeContent)] + [Flush]), main);
    ReaderWrites(cfg, b.(pos := YRadius), PlayerSpawn, YSpawn, [Put(CreativeContent)] + [Flush], main);
    ReaderWrites(cfg, b.(pos := YSpawn), CreativeContent, YDone, [Flush], main);
    ReaderFlushes(cfg, b.(pos := YDone), main);
  }

  lemma HandlesInitialised(cfg: Config, q: Queue)
    requires Transferable(cfg)
    ensures ServerHandles(cfg, q, XRadius)
  {
    hide NextInfo, HandleChunkRequest, ModeOf, ServerHandles, ServerRest, Transferable, HandleSendPacks, Settle;
    var a, c := ServerGoal(cfg, XRadius).core, ServerGoal(cfg, XDone).core;
    var b := a.(gate := a.gate.(waiting := false));
    var ops := [Waiting(false)] + ([Spawn] + [Flush]);
    forall main | Blocked(main) ensures Settle(cfg, a, ops, main) == Settled(c, main) {
      Goes(cfg, a, Waiting(false), [Spawn] + [Flush], main);
      Goes(cfg, b, Spawn, [Flush], main);
      ReaderFlushes(cfg, c, main);
    }
    assert ops == [Waiting(false), Spawn] + [Flush];
    ServerDoes(cfg, q, XRadius, XDone, ops, q);
  }

  // -------------------------------------------------- Completed, and StartGame

  // The writes of StartGame, from the last to the first.

  const ITEMS: seq<Op> := [Put(ItemRegistry), Flush]
  const START: seq<Op> := [Put(StartGame)] + ITEMS
  const VOXEL: seq<Op> := [Put(VoxelShapes)] + START
  const JIGSAW: seq<Op> := [Put(JigsawStructureData)] + VOXEL

  lemma ItemsSettle(cfg: Config, k: Core)
    requires Transferable(cfg) && k.gate.enc == FinalMode(cfg) && k.pos == YStart
    ensures Settle(cfg, k, [], ITEMS) == Settled(k.(pos := YItems), [])
  {
    assert ITEMS == [Put(ItemRegistry)] + [Flush];
    MainWrites(cfg, k, ItemRegistry, YItems, [Flush]);
    assert [Flush][1..] == [];
  }

  lemma VoxelSettles(cfg: Config, k: Core)
    requires Transferable(cfg) && k.gate.enc == FinalMode(cfg) && k.pos == YJigsaw
    ensures Settle(cfg, k, [], VOXEL) == Settled(k.(pos := YItems), [])
  {
    MainWrites(cfg, k, VoxelShapes, YVoxel, START);
    MainWrites(cfg, k.(pos := YVoxel), StartGame, YStart, ITEMS);
    ItemsSettle(cfg, k.(pos := YStart));
  }

  lemma DimensionSettles(cfg: Config, k: Core)
    requires Transferable(cfg) && k.gate.enc == FinalMode(cfg) && k.pos == YStack
    ensures Settle(cfg, k, [], (if cfg.dimensions then [Put(DimensionData)] else []) + JIGSAW)
            == Settled(k.(pos := YItems), [])
  {
    if cfg.dimensions {
      MainWrites(cfg, k, DimensionData, YDimension, JIGSAW);
      MainWrites(cfg, k.(pos := YDimension), JigsawStructureData, YJigsaw, VOXEL);
    } else {
      assert [] + JIGSAW == JIGSAW;
      MainWrites(cfg, k, JigsawStructureData, YJigsaw, VOXEL);
    }
    VoxelSettles(cfg, k.(pos := YJigsaw));
  }

  lemma GameParts(cfg: Config)
    ensures Game(cfg) == [Waiting(true)] + ([Expect({RequestChunkRadiusId, SetLocalPlayerId})]
                         + ((if cfg.dimensions then [Put(DimensionData)] else []) + JIGSAW))
  {
  }

  lemma GameSettles(cfg: Config, k: Core)
    requires Transferable(cfg) && k.pos == YStack && k.gate.enc == FinalMode(cfg)
    ensures Settle(cfg, k, [], Game(cfg)) ==
            Settled(Core(k.gate.(waiting := true, expected := {RequestChunkRadiusId, SetLocalPlayerId}), YItems), [])
  {
    var tail := (if cfg.dimensions then [Put(DimensionData)] else []) + JIGSAW;
    var gated := Expect({RequestChunkRadiusId, SetLocalPlayerId});
    var b := k.(gate := k.gate.(waiting := true));
    var c := b.(gate := b.gate.(expected := {RequestChunkRadiusId, SetLocalPlayerId}));
    GameParts(cfg);
    GoesMain(cfg, k, Waiting(true), [gated] + tail);
    GoesMain(cfg, b, gated, tail);
    DimensionSettles(cfg, c);
  }

  lemma HandlesCompleted(cfg: Config, q: Queue)
    requires Transferable(cfg)
    ensures ServerHandles(cfg, q, XAll)
  {
    var a := ServerGoal(cfg, XAll).core;
    var b := a.(gate := a.gate.(loggedIn := true));
    var ops := [LogIn, Flush, Signal];
    assert HandleUp(cfg, ServerGate(cfg, XAll), q, Completed) == Does(q, ops);
    var main := [Await] + Game(cfg);
    calc {
      Settle(cfg, a, ops, main);
      { assert ops == [LogIn] + [Flush, Signal]; Goes(cfg, a, LogIn, [Flush, Signal], main); }
      Settle(cfg, b, [Flush, Signal], main);
      { assert [Flush, Signal] == [Flush] + [Signal]; Goes(cfg, b, Flush, [Signal], main); }
      Settle(cfg, b, [Signal], main);
      { assert [Signal][1..] == [] && main[1..] == Game(cfg); }
      Settle(cfg, b, [], Game(cfg));
      { GameSettles(cfg, b); }
      ServerGoal(cfg, XCompleted);
    }
  }

  // ------------------------------------------------------------ any next packet

  lemma ServerHandlesNext(cfg: Config, q: Queue, x: Pos)
    requires Transferable(cfg) && Ordered(cfg) && On(cfg, x) && Up(x) && Next(cfg, x).Turn? && QueueOk(cfg, q, x)
    ensures On(cfg, Next(cfg, x).next) && ServerHandles(cfg, q, x)
  {
    hide ServerHandles, Sending, PendingFrom, Settle, Later, DataOf, InfoOf;
    NextOn(cfg, x);
    match x
    case X0 => HandlesSettings(cfg, q);
    case XSettings => if cfg.encrypted { HandlesEncryptedLogin(cfg, q); } else { HandlesAuthentication(cfg, q, x); }
    case XLogin => if cfg.encrypted { HandlesAuthentication(cfg, q, x); } else { HandlesCache(cfg, q, x); }
    case XHandshake => HandlesCache(cfg, q, x);
    case XCache => if cfg.order == [] { HandlesAll(cfg, q, x); } else { HandlesSend(cfg, q); }
    case XSend => HandlesChunk(cfg, q, x, 0, 0);
    case XRequest(i, k) =>
      if k + 1 < Count(cfg, i) {
        HandlesChunk(cfg, q, x, i, k + 1);
      } else if i + 1 < |cfg.order| {
        HandlesChunk(cfg, q, x, i + 1, 0);
      } else {
        HandlesAll(cfg, q, x);
      }
    case XAll => HandlesCompleted(cfg, q);
    case XCompleted => HandlesRadius(cfg, q);
    case XRadius => HandlesInitialised(cfg, q);
  }

  lemma HandlesChunk(cfg: Config, q: Queue, x: Pos, i: nat, k: nat)
    requires Transferable(cfg) && Requests(cfg, x, i, k) && Sending(cfg, q, i, k)
    ensures ServerHandles(cfg, q, x)
  {
    if k + 1 < Count(cfg, i) {
      HandlesMiddle(cfg, q, x, i, k);
    } else if i + 1 < |cfg.order| {
      HandlesEnd(cfg, q, x, i, k);
    } else {
      HandlesLast(cfg, q, x, i, k);
    }
  }

  /** The next packet is one the listener expects, in the mode its decoder is in, and it is not logged in yet or waits. */
  lemma ServerExpectsNext(cfg: Config, x: Pos)
    requires Transferable(cfg) && On(cfg, x) && Up(x) && Next(cfg, x).Turn?
    ensures !Defers(ServerGate(cfg, x), Next(cfg, x).packet)
    ensures ModeOf(cfg, Next(cfg, x).packet) == ServerGate(cfg, x).dec
  {
  }
}
