/** The dialer's steps into, inside and out of the transfer keep the invariant. */
module SessionTransferSteps {
  import opened Wire
  import opened Packs
  import opened Session
  import opened SessionScript
  import opened SessionSettle
  import opened SessionSide
  import opened SessionServer
  import opened SessionClient
  import opened SessionTransfer
  import opened SessionInvariant
  import opened SessionClientSteps

  /** The dialer in the transfer, field by field. */
  lemma TransferIs(cfg: Config, c: Conn, c': Conn, y: Pos, x: Pos)
    requires ValidConfig(cfg) && On(cfg, y) && Transfers(y) && On(cfg, x) && Up(x)
    requires c'.main == c.main && Idle(c.main) && Rested(c.main) == [Await] && Eager(c.main)
    requires TransferTodo(cfg, c'.todo, y.i, PartOf(y))
    requires c'.gate == ClientGate(cfg, YInfo).(expected := c'.gate.expected)
    requires Transferring(cfg, c'.queue, y.i, PartOf(y), |c'.todo| == 2)
    requires RestOk(cfg, c'.gate, c'.queue, y.i, PartOf(y), x)
    requires WellBuffered(cfg, c') && !c'.failed && c'.deferred == Deferred(y)
    ensures ClientOk(cfg, c', y, x)
  {
  }

  // ------------------------------------------------------------------ receiving

  /** The first data info starts the transfer. */
  lemma FirstInfoReceived(cfg: Config, c: Conn, x: Pos)
    requires ValidConfig(cfg) && cfg.order != [] && ClientOk(cfg, c, YInfo, x) && c.todo == []
    requires c.inbox != [] && c.inbox[0] == InfoOf(cfg, 0)
    requires Idle(c.main) && Rested(c.main) == [Await] && Core(c.gate, x) == ClientGoal(cfg, YInfo).core
    ensures ClientOk(cfg, Receive(cfg, c, false), YData(0), x)
  {
    hide Ordered, Path;
    HandlesFirstInfo(cfg, c.queue);
    var h := HandleDown(cfg, c.gate, c.queue, c.inbox[0]);
    ReceiveHandles(cfg, c);
    var c' := Taken(c, h);
    LeftZero(cfg, h.q.downloads, |cfg.order|);
    assert !Arrived(h.q.downloads, cfg.order[0].id);
    FreshDownload(cfg, c.queue, 0);
    TransferIs(cfg, c, c', YData(0), x);
  }

  /** A data info leaves its goroutine about to ask for the first chunk. */
  lemma FreshDownload(cfg: Config, q: Queue, i: nat)
    requires Transferable(cfg) && i < |cfg.order|
    requires HandleDataInfo(q, cfg.order[i].id, cfg.chunk, |cfg.order[i].content|).Does?
    ensures var h := HandleDataInfo(q, cfg.order[i].id, cfg.chunk, |cfg.order[i].content|);
      cfg.order[i].id in h.q.downloads && h.q.downloads[cfg.order[i].id].at == Asking(0)
  {
  }

  /** What stays of the dialer in the transfer while its reader is between two packets. */
  predicate Between(cfg: Config, c: Conn)
  {
    && c.todo == [] && c.inbox != [] && !c.failed && WellBuffered(cfg, c)
    && Idle(c.main) && Rested(c.main) == [Await] && Eager(c.main)
    && c.gate == ClientGate(cfg, YInfo).(expected := c.gate.expected)
  }

  /** A handler that leads on in the transfer. */
  lemma TransferTakes(cfg: Config, c: Conn, h: Handling, y: Pos, x: Pos)
    requires ValidConfig(cfg) && On(cfg, y) && Transfers(y) && On(cfg, x) && Up(x) && Between(cfg, c)
    requires !Defers(c.gate, c.inbox[0]) && h == HandleDown(cfg, c.gate, c.queue, c.inbox[0]) && h.Does?
    requires TransferTodo(cfg, h.ops, y.i, PartOf(y)) && Transferring(cfg, h.q, y.i, PartOf(y), |h.ops| == 2)
    requires RestOk(cfg, c.gate, h.q, y.i, PartOf(y), x) && c.deferred == Deferred(y)
    ensures ClientOk(cfg, Receive(cfg, c, false), y, x)
  {
    ReceiveHandles(cfg, c);
    TransferIs(cfg, c, Taken(c, h), y, x);
  }

  /** The dialer between two packets of a pack it still fetches. */
  lemma StillFetches(cfg: Config, c: Conn, y: Pos, x: Pos)
    requires ValidConfig(cfg) && On(cfg, y) && Transfers(y) && ClientOk(cfg, c, y, x) && c.todo == [] && c.inbox != []
    requires PartOf(y) < Count(cfg, y.i) || y.i + 1 < |cfg.order|
    ensures Between(cfg, c) && c.gate.expected == FETCHING && c.queue.rest == [] && c.queue.amount > 0
    ensures Transferring(cfg, c.queue, y.i, PartOf(y), false) && c.deferred == [] && !c.gate.loggedIn
    ensures x == Asked(cfg, y.i, PartOf(y), c.queue.downloads[cfg.order[y.i].id].at) && On(cfg, x) && Up(x)
  {
    hide Agreed, AllGone, Announced, Blocked, BufferOk, ClientExpects, IdsFrom, Left, Lookup;
    if c.queue.amount == 0 {
      NoneLeft(cfg, c.queue, y.i, PartOf(y), false);
      assert false;
    }
  }

  lemma InfoReceived(cfg: Config, c: Conn, y: Pos, x: Pos)
    requires ValidConfig(cfg) && On(cfg, y) && y.YChunk? && ClientOk(cfg, c, y, x) && c.todo == []
    requires y.k + 1 == Count(cfg, y.i) && y.i + 1 < |cfg.order|
    requires c.inbox != [] && c.inbox[0] == InfoOf(cfg, y.i + 1)
    ensures ClientOk(cfg, Receive(cfg, c, false), YData(y.i + 1), x)
  {
    hide ValidConfig, ClientOk, Between, Transferring, Asked, Count, On, Up, Receive, InfoOf;
    StillFetches(cfg, c, y, x);
    AllAsked(cfg, c.queue, y, x);
    InfoTaken(cfg, c, y.i, x);
  }

  lemma InfoTaken(cfg: Config, c: Conn, i: nat, x: Pos)
    requires ValidConfig(cfg) && i + 1 < |cfg.order| && On(cfg, x) && x == XRequest(i, Count(cfg, i) - 1)
    requires Between(cfg, c) && c.gate.expected == FETCHING && !c.gate.loggedIn && c.queue.rest == [] && c.deferred == []
    requires Transferring(cfg, c.queue, i, Count(cfg, i), false) && c.inbox[0] == InfoOf(cfg, i + 1)
    ensures ClientOk(cfg, Receive(cfg, c, false), YData(i + 1), x)
  {
    hide Agreed, Ordered, Path, Tracks, Holding;
    InfoHandled(cfg, c.gate, c.queue, i);
    TransferTakes(cfg, c, HandleDown(cfg, c.gate, c.queue, c.inbox[0]), YData(i + 1), x);
  }

  lemma InfoHandled(cfg: Config, g: Gate, q: Queue, i: nat)
    requires ValidConfig(cfg) && i + 1 < |cfg.order| && Transferring(cfg, q, i, Count(cfg, i), false)
    requires q.rest == [] && g.expected == FETCHING
    ensures var r := HandleDown(cfg, g, q, InfoOf(cfg, i + 1));
      && r.Does? && r.ops == [Flush] && Transferring(cfg, r.q, i + 1, 0, false)
      && RestOk(cfg, g, r.q, i + 1, 0, XRequest(i, Count(cfg, i) - 1))
  {
    hide Transferring, Ordered, Agreed, Count, HandleChunkData, HandleStack, HandlePacksInfo, HandleDataInfo;
    HandlesInfo(cfg, q, i);
    FreshDownload(cfg, q, i + 1);
    CountPositive(cfg, i);
  }

  /** Every chunk of the announced packs is handled: the last thing written was the request for the last of them. */
  lemma AllAsked(cfg: Config, q: Queue, y: Pos, x: Pos)
    requires ValidConfig(cfg) && On(cfg, y) && y.YChunk? && y.k + 1 == Count(cfg, y.i)
    requires Transferring(cfg, q, y.i, y.k + 1, false)
    requires x == Asked(cfg, y.i, y.k + 1, q.downloads[cfg.order[y.i].id].at)
    ensures x == XRequest(y.i, Count(cfg, y.i) - 1)
  {
  }

  lemma ChunkReceived(cfg: Config, c: Conn, y: Pos, x: Pos)
    requires ValidConfig(cfg) && On(cfg, y) && Transfers(y) && ClientOk(cfg, c, y, x) && c.todo == []
    requires PartOf(y) < Count(cfg, y.i) && x == XRequest(y.i, PartOf(y))
    requires c.inbox != [] && c.inbox[0] == DataOf(cfg, y.i, PartOf(y))
    ensures ClientOk(cfg, Receive(cfg, c, false), YChunk(y.i, PartOf(y)), x)
  {
    StillFetches(cfg, c, y, x);
    AskingIsNotListening(cfg, c.queue, y);
    ChunkTaken(cfg, c, y, x);
  }

  lemma ChunkTaken(cfg: Config, c: Conn, y: Pos, x: Pos)
    requires ValidConfig(cfg) && On(cfg, y) && Transfers(y) && PartOf(y) < Count(cfg, y.i)
    requires Between(cfg, c) && c.gate.expected == FETCHING && !c.gate.loggedIn && c.queue.rest == [] && c.deferred == []
    requires Transferring(cfg, c.queue, y.i, PartOf(y), false) && c.queue.amount > 0 && x == XRequest(y.i, PartOf(y))
    requires c.queue.downloads[cfg.order[y.i].id].at == Listening(PartOf(y))
    requires c.inbox[0] == DataOf(cfg, y.i, PartOf(y))
    ensures ClientOk(cfg, Receive(cfg, c, false), YChunk(y.i, PartOf(y)), x)
  {
    hide Agreed, Ordered, Path, Tracks, Holding;
    var r := HandleDown(cfg, c.gate, c.queue, c.inbox[0]);
    ChunkHandled(cfg, c.gate, c.queue, y.i, PartOf(y));
    TransferTakes(cfg, c, r, YChunk(y.i, PartOf(y)), x);
  }

  lemma ChunkHandled(cfg: Config, g: Gate, q: Queue, i: nat, h: nat)
    requires ValidConfig(cfg) && i < |cfg.order| && h < Count(cfg, i)
    requires Transferring(cfg, q, i, h, false) && q.downloads[cfg.order[i].id].at == Listening(h)
    requires q.amount > 0 && q.rest == [] && g.expected == FETCHING
    ensures var r := HandleDown(cfg, g, q, DataOf(cfg, i, h));
      && r.Does? && TransferTodo(cfg, r.ops, i, h + 1) && |r.ops| == 2
      && Transferring(cfg, r.q, i, h + 1, true) && RestOk(cfg, g, r.q, i, h + 1, XRequest(i, h))
  {
    hide Ordered, Agreed, Holding, HandleDataInfo, HandleStack, HandlePacksInfo, HandleChunkData;
    HandlesChunkData(cfg, q, i, h);
    var r := HandleChunkData(q, cfg.order[i].id, h, Chunk(cfg, i, h));
    assert r.q.downloads[cfg.order[i].id].at == Listening(h);
  }

  lemma AskingIsNotListening(cfg: Config, q: Queue, y: Pos)
    requires ValidConfig(cfg) && On(cfg, y) && Transfers(y) && Transferring(cfg, q, y.i, PartOf(y), false)
    requires Asked(cfg, y.i, PartOf(y), q.downloads[cfg.order[y.i].id].at) == XRequest(y.i, PartOf(y))
    ensures q.downloads[cfg.order[y.i].id].at == Listening(PartOf(y))
  {
  }

  /** The stack arrives when the goroutine that saw no pack left has asked for it. */
  lemma StackReceived(cfg: Config, c: Conn, y: Pos)
    requires ValidConfig(cfg) && On(cfg, y) && y.YChunk? && ClientOk(cfg, c, y, XAll) && c.todo == []
    requires y.k + 1 == Count(cfg, y.i) && y.i + 1 == |cfg.order|
    requires c.inbox != [] && c.inbox[0] == ResourcePackStack(cfg.packs) && Acceptable(cfg)
    ensures ClientOk(cfg, Receive(cfg, c, false), YStack, XAll)
  {
    AllAnnounced(cfg, c, y);
    NoneLeft(cfg, c.queue, y.i, PartOf(y), false);
    EveryoneGone(cfg, c.queue, y.i, PartOf(y));
    HoldingAccepts(cfg, c.queue);
    StackTaken(cfg, c);
  }

  /** The request for the stack is only written once no pack is left. */
  lemma AllAnnounced(cfg: Config, c: Conn, y: Pos)
    requires ValidConfig(cfg) && On(cfg, y) && y.YChunk? && ClientOk(cfg, c, y, XAll) && c.todo == [] && c.inbox != []
    ensures c.queue.amount == 0 && c.queue.rest == [] && c.gate.expected == STACKING
    ensures Between(cfg, c) && Transferring(cfg, c.queue, y.i, PartOf(y), false) && c.deferred == []
  {
  }

  lemma StackTaken(cfg: Config, c: Conn)
    requires ValidConfig(cfg) && Between(cfg, c) && c.gate.expected == STACKING && c.queue.rest == [] && c.deferred == []
    requires AllGone(c.queue) && Complete(cfg, c.queue) && Accepts(c.queue.ignored, c.queue.held, cfg.packs)
    requires c.inbox[0] == ResourcePackStack(cfg.packs)
    ensures ClientOk(cfg, Receive(cfg, c, false), YStack, XAll)
  {
    hide Ordered, Path, Accepts, Advance, Agreed, Announced, BufferOk, Chunk, ClientExpects, ClientGoal;
    assert c.gate == ClientGate(cfg, YInfo).(expected := STACKING);
    HandlesStack(cfg, c.gate, c.queue);
    ReceiveHandles(cfg, c);
    QuietTakes(cfg, c, YInfo, YStack, XAll, [Await]);
  }

  lemma EveryoneGone(cfg: Config, q: Queue, i: nat, h: nat)
    requires ValidConfig(cfg) && Transferring(cfg, q, i, h, false) && q.amount == 0
    requires forall j | 0 <= j < |cfg.order| :: Arrived(q.downloads, cfg.order[j].id)
    ensures AllGone(q) && Complete(cfg, q)
  {
    forall id | id in q.downloads ensures q.downloads[id].at.Gone? {
      assert id in IdsFrom(cfg, 0);
      var j :| 0 <= j < |cfg.order| && cfg.order[j].id == id;
      assert Arrived(q.downloads, cfg.order[j].id);
    }
  }

  /** Holding every pack, the dialer accepts what it would accept of the packs in their own order. */
  lemma HoldingAccepts(cfg: Config, q: Queue)
    requires ValidConfig(cfg) && Holding(cfg, q)
    requires forall j | 0 <= j < |cfg.order| :: Arrived(q.downloads, cfg.order[j].id)
    ensures Accepts(q.ignored, q.held, cfg.packs) <==> Acceptable(cfg)
  {
    var s := Sort(cfg.packs, cfg.verdicts);
    var all := s.cached + cfg.order;
    SameAccepted(s.ignored, all, q.held, cfg.packs);
    SameAccepted(s.ignored, q.held, all, cfg.packs);
  }

  lemma SameAccepted(ignored: seq<Name>, a: seq<Pack>, b: seq<Pack>, stack: seq<Pack>)
    requires forall p | p in a :: p in b
    ensures Accepts(ignored, a, stack) ==> Accepts(ignored, b, stack)
  {
    if Accepts(ignored, a, stack) {
      forall i | 0 <= i < |stack| ensures Has(ignored, b, NameOf(stack[i])) {
        assert Has(ignored, a, NameOf(stack[i]));
        if NameOf(stack[i]) !in ignored {
          var j :| 0 <= j < |a| && NameOf(a[j]) == NameOf(stack[i]) && !a[j].behaviours;
          assert a[j] in b;
        }
      }
    }
  }

  // ------------------------------------------------------------------- operations

  lemma TransferFlush(cfg: Config, c: Conn, y: Pos, x: Pos)
    requires ValidConfig(cfg) && On(cfg, y) && Transfers(y) && ClientOk(cfg, c, y, x)
    requires c.todo != [] && c.todo[0].Flush?
    ensures ClientOk(cfg, Step(c), y, x) && Step(c).gate == c.gate && Step(c).buffer == c.buffer
    ensures Step(c).written == c.written && Step(c).inbox == c.inbox
  {
    assert c.todo == [Flush] && c.todo[1..] == [];
    TransferIs(cfg, c, Step(c), y, x);
  }

  /** The reader hands a fragment to the goroutine that waits for it. */
  lemma TransferDeliver(cfg: Config, c: Conn, y: Pos, x: Pos)
    requires ValidConfig(cfg) && On(cfg, y) && Transfers(y) && ClientOk(cfg, c, y, x)
    requires CanStep(c) && c.todo[0].Deliver?
    ensures ClientOk(cfg, Step(c), y, x)
    ensures Step(c).gate == c.gate && Step(c).buffer == c.buffer && Step(c).written == c.written && Step(c).inbox == c.inbox
  {
    hide Ordered, Agreed, Path, Holding;
    var i, h := y.i, PartOf(y);
    var id := cfg.order[i].id;
    var d := c.queue.downloads[id];
    assert c.todo == [Deliver(id, Chunk(cfg, i, h - 1)), Flush] && c.todo[1..] == [Flush];
    var d' := d.(at := Storing(h - 1, Chunk(cfg, i, h - 1)));
    DownloadMoves(cfg, c.queue, i, h, true, i, d', h, false);
    if c.queue.amount == 0 {
      NoneLeft(cfg, c.queue, i, h, true);
      assert false;
    }
    TransferIs(cfg, c, Step(c), y, x);
  }

  lemma TransferMain(cfg: Config, c: Conn, y: Pos, x: Pos)
    requires ValidConfig(cfg) && On(cfg, y) && Transfers(y) && ClientOk(cfg, c, y, x) && CanMain(c)
    ensures c.main[0].Flush? && ClientOk(cfg, MainStep(c), y, x)
    ensures MainStep(c).gate == c.gate && MainStep(c).buffer == c.buffer
    ensures MainStep(c).written == c.written && MainStep(c).inbox == c.inbox
  {
    TransferIs(cfg, c.(main := c.main[1..]), MainStep(c), y, x);
  }
}
