/** What every reachable state of a session satisfies. */
module SessionInvariant {
  import opened Wire
  import opened Packs
  import opened Session
  import opened SessionScript
  import opened SessionSettle
  import opened SessionSide
  import opened SessionServer
  import opened SessionClient
  import opened SessionTransfer

  // ------------------------------------------------------------------ the wire

  function Flat(wire: seq<Batch>): seq<Packet>
  {
    if wire == [] then [] else wire[0].packets + Flat(wire[1..])
  }

  lemma {:induction false} FlatSnoc(wire: seq<Batch>, b: Batch)
    ensures Flat(wire + [b]) == Flat(wire) + b.packets
  {
    if wire == [] {
      assert wire + [b] == [b] && [b][1..] == [];
    } else {
      assert (wire + [b])[1..] == wire[1..] + [b];
      FlatSnoc(wire[1..], b);
      assert wire[0].packets + (Flat(wire[1..]) + b.packets) == wire[0].packets + Flat(wire[1..]) + b.packets;
    }
  }

  /** Every batch was encoded in the mode that each of its packets has to be encoded in. */
  predicate Labelled(cfg: Config, wire: seq<Batch>)
  {
    forall i | 0 <= i < |wire| :: wire[i].packets != []
      && forall j | 0 <= j < |wire[i].packets| :: ModeOf(cfg, wire[i].packets[j]) == wire[i].mode
  }

  /** From what one side handled, over what is on its way, to what the other side wrote. */
  predicate Stream(cfg: Config, from: Pos, inbox: seq<Packet>, wire: seq<Batch>, buffer: seq<Packet>, to: Pos)
    requires Transferable(cfg)
  {
    Path(cfg, from, inbox + Flat(wire) + buffer, to) && Labelled(cfg, wire)
  }

  lemma StreamFlushed(cfg: Config, from: Pos, inbox: seq<Packet>, wire: seq<Batch>, c: Conn, to: Pos)
    requires Transferable(cfg) && Stream(cfg, from, inbox, wire, c.buffer, to) && WellBuffered(cfg, c)
    ensures Stream(cfg, from, inbox, Sent(c, wire), [], to)
  {
    if c.buffer != [] {
      FlatSnoc(wire, Batch(c.gate.enc, c.buffer));
      assert inbox + Flat(wire) + c.buffer == inbox + (Flat(wire) + c.buffer) + [];
    }
  }

  lemma StreamWritten(cfg: Config, from: Pos, inbox: seq<Packet>, wire: seq<Batch>, buffer: seq<Packet>, to: Pos)
    requires Transferable(cfg) && Stream(cfg, from, inbox, wire, buffer, to) && On(cfg, to) && Next(cfg, to).Turn?
    ensures Stream(cfg, from, inbox, wire, buffer + [Next(cfg, to).packet], Next(cfg, to).next)
  {
    PathGrows(cfg, from, inbox + Flat(wire) + buffer, to);
    assert inbox + Flat(wire) + buffer + [Next(cfg, to).packet] == inbox + Flat(wire) + (buffer + [Next(cfg, to).packet]);
  }

  lemma StreamDecoded(cfg: Config, from: Pos, wire: seq<Batch>, buffer: seq<Packet>, to: Pos)
    requires Transferable(cfg) && Stream(cfg, from, [], wire, buffer, to) && wire != []
    ensures Stream(cfg, from, wire[0].packets, wire[1..], buffer, to)
  {
    assert [] + Flat(wire) + buffer == wire[0].packets + Flat(wire[1..]) + buffer;
  }

  lemma StreamHandled(cfg: Config, from: Pos, inbox: seq<Packet>, wire: seq<Batch>, buffer: seq<Packet>, to: Pos)
    requires Transferable(cfg) && Stream(cfg, from, inbox, wire, buffer, to) && inbox != []
    ensures On(cfg, from) && Next(cfg, from).Turn? && Next(cfg, from).packet == inbox[0]
    ensures Stream(cfg, Next(cfg, from).next, inbox[1..], wire, buffer, to)
  {
    assert (inbox + Flat(wire) + buffer)[1..] == inbox[1..] + Flat(wire) + buffer;
  }

  lemma PathHead(cfg: Config, from: Pos, packets: seq<Packet>, to: Pos)
    requires Transferable(cfg) && Path(cfg, from, packets, to)
    ensures AtMost(from, to) && On(cfg, from) && On(cfg, to)
    ensures from == to ==> packets == []
    ensures packets != [] ==> Later(from, to) && Next(cfg, from).Turn? && Next(cfg, from).packet == packets[0]
    ensures packets != [] ==> On(cfg, Next(cfg, from).next) && AtMost(Next(cfg, from).next, to)
  {
    PathForward(cfg, from, packets, to);
    if packets != [] { PathForward(cfg, Next(cfg, from).next, packets[1..], to); }
  }

  /** The first packet on its way is the next one to handle; there is none if everything written is handled. */
  lemma StreamHead(cfg: Config, from: Pos, inbox: seq<Packet>, wire: seq<Batch>, buffer: seq<Packet>, to: Pos)
    requires Transferable(cfg) && Stream(cfg, from, inbox, wire, buffer, to)
    ensures AtMost(from, to) && On(cfg, from) && On(cfg, to)
    ensures from == to ==> inbox == [] && Flat(wire) == [] && buffer == []
    ensures inbox != [] || wire != [] ==> Later(from, to) && Next(cfg, from).Turn? && On(cfg, Next(cfg, from).next)
    ensures inbox != [] || wire != [] ==> AtMost(Next(cfg, from).next, to)
    ensures inbox == [] && wire != [] ==> ModeOf(cfg, Next(cfg, from).packet) == wire[0].mode
  {
    var all := inbox + Flat(wire) + buffer;
    PathHead(cfg, from, all, to);
    if wire != [] {
      assert wire[0].packets != [] && Flat(wire)[0] == wire[0].packets[0];
    }
  }

  // ------------------------------------------------------------- the two sides

  /** The goroutine that calls StartGame: not before the login, and with nothing but a flush left once it is answered. */
  predicate ServesOk(cfg: Config, x: Pos, main: seq<Op>)
  {
    && (Stage(x) < 8 ==> main == [Await] + Game(cfg))
    && (Stage(x) > 8 ==> Idle(main) && Rested(main) == [])
  }

  /** The listener has handled the packets up to x and written those up to y. */
  predicate ServerOk(cfg: Config, c: Conn, x: Pos, y: Pos)
    requires Transferable(cfg)
  {
    && On(cfg, x) && Up(x)
    && SideOk(cfg, c, y, ServerGoal(cfg, x))
    && ServesOk(cfg, x, c.main)
    && QueueOk(cfg, c.queue, x)
    && c.deferred == []
  }

  /** The goroutine that dials: with nothing but a flush left until it waits, once the login is answered. */
  predicate DialsOk(y: Pos, main: seq<Op>)
  {
    Stage(y) >= 2 ==> Idle(main) && |Rested(main)| <= 1
  }

  /** The packets the dialer's user gets to see. */
  function Deferred(y: Pos): seq<Packet>
  {
    (if Stage(y) >= 8 then [JigsawStructureData] else [])
    + (if Stage(y) >= 9 then [VoxelShapes] else [])
    + (if Stage(y) >= 14 then [CreativeContent] else [])
  }

  /** Every pack is there: what was cached, and each pack of the order. */
  predicate Complete(cfg: Config, q: Queue)
  {
    && q.amount == 0
    && (forall j | 0 <= j < |cfg.order| :: Arrived(q.downloads, cfg.order[j].id) && cfg.order[j] in q.held)
    && |q.held| == |Sort(cfg.packs, cfg.verdicts).cached| + |cfg.order|
  }

  predicate AllGone(q: Queue)
  {
    forall id | id in q.downloads :: q.downloads[id].at.Gone?
  }

  predicate QuietOk(cfg: Config, c: Conn, y: Pos, x: Pos)
    requires Transferable(cfg) && On(cfg, y) && !Up(y)
  {
    && SideOk(cfg, c, x, ClientGoal(cfg, y))
    && QuietQueue(cfg, c.queue, y)
    && AllGone(c.queue)
    && (Stage(y) >= 6 ==> Complete(cfg, c.queue))
  }

  const STACKING: set<Kind> := {ResourcePackStackId, PlayStatusId}

  /** The dialer's position after a pack's goroutine got to where it is, with h of its chunks handled. */
  function Asked(cfg: Config, i: nat, h: nat, at: Routine): Pos
    requires Transferable(cfg) && i < |cfg.order|
  {
    if at.Listening? then XRequest(i, at.k)
    else if h > 0 then XRequest(i, h - 1)
    else if i == 0 then XSend
    else XRequest(i - 1, Count(cfg, i - 1) - 1)
  }

  /** What the packs left mean for the position, the expected packets and the goroutine that sees none left. */
  predicate RestOk(cfg: Config, g: Gate, q: Queue, i: nat, h: nat, x: Pos)
    requires Transferable(cfg) && i < |cfg.order| && cfg.order[i].id in q.downloads
  {
    var n := |cfg.order|;
    if q.amount > 0 then
      q.rest == [] && g.expected == FETCHING && x == Asked(cfg, i, h, q.downloads[cfg.order[i].id].at)
    else
      || (q.rest == ANNOUNCE && g.expected == FETCHING && x == XRequest(n - 1, Count(cfg, n - 1) - 1))
      || (q.rest == ANNOUNCE[1..] && g.expected == STACKING && x == XRequest(n - 1, Count(cfg, n - 1) - 1))
      || (q.rest == [] && g.expected == STACKING && x == XAll)
  }

  /** What is left of the handler of a data info or a chunk. */
  predicate TransferTodo(cfg: Config, todo: seq<Op>, i: nat, h: nat)
    requires Transferable(cfg) && i < |cfg.order|
  {
    || todo == []
    || todo == [Flush]
    || (0 < h <= Count(cfg, i) && todo == [Deliver(cfg.order[i].id, Chunk(cfg, i, h - 1)), Flush])
  }

  function PartOf(y: Pos): nat { if y.YChunk? then y.k + 1 else 0 }

  /** The dialer in the transfer. */
  predicate TransferOk(cfg: Config, c: Conn, y: Pos, x: Pos)
    requires Transferable(cfg) && On(cfg, y) && Transfers(y)
  {
    var i, h := y.i, PartOf(y);
    && On(cfg, x) && Up(x)
    && TransferTodo(cfg, c.todo, i, h)
    && Idle(c.main) && Rested(c.main) == [Await] && Eager(c.main)
    && c.gate == ClientGate(cfg, YInfo).(expected := c.gate.expected)
    && Transferring(cfg, c.queue, i, h, |c.todo| == 2)
    && RestOk(cfg, c.gate, c.queue, i, h, x)
    && WellBuffered(cfg, c) && !c.failed
  }

  /** The dialer has handled the packets up to y and written those up to x. */
  predicate ClientOk(cfg: Config, c: Conn, y: Pos, x: Pos)
    requires Transferable(cfg)
  {
    && On(cfg, y) && !Up(y)
    && c.deferred == Deferred(y)
    && DialsOk(y, c.main)
    && if Transfers(y) then TransferOk(cfg, c, y, x) else QuietOk(cfg, c, y, x)
  }

  /** How far the listener handled and wrote, and how far the dialer handled and wrote. */
  datatype Marks = Marks(handledUp: Pos, writtenDown: Pos, handledDown: Pos, writtenUp: Pos)

  predicate ValidConfig(cfg: Config)
  {
    Transferable(cfg) && Ordered(cfg) && Agreed(cfg)
  }

  predicate Inv(cfg: Config, s: State, m: Marks)
    requires ValidConfig(cfg)
  {
    && ServerOk(cfg, s.server, m.handledUp, m.writtenDown)
    && ClientOk(cfg, s.client, m.handledDown, m.writtenUp)
    && Stream(cfg, m.handledUp, s.server.inbox, s.up, s.client.buffer, m.writtenUp)
    && Stream(cfg, m.handledDown, s.client.inbox, s.down, s.server.buffer, m.writtenDown)
    && Path(cfg, X0, s.client.written, m.writtenUp)
    && Path(cfg, Y0, s.server.written, m.writtenDown)
    && (Stage(m.handledDown) >= 6 ==> Acceptable(cfg))
  }

  /** A step that leaves the inbox, and writes the next packet of the script or nothing. */
  predicate Proceeds(cfg: Config, c: Conn, c': Conn, x: Pos, x': Pos)
    requires Transferable(cfg)
  {
    && c'.inbox == c.inbox
    && if x' == x then c'.buffer == c.buffer && c'.written == c.written
       else
         && On(cfg, x) && Next(cfg, x).Turn? && x' == Next(cfg, x).next
         && c'.buffer == c.buffer + [Next(cfg, x).packet] && c'.written == c.written + [Next(cfg, x).packet]
  }

  // ------------------------------------------------ how far each side can be ahead

  lemma BeforeTransitive(a: nat, b: nat, c: nat, a': nat, b': nat, c': nat, a'': nat, b'': nat, c'': nat)
    requires Before(a, b, c, a', b', c') && Before(a', b', c', a'', b'', c'')
    ensures Before(a, b, c, a'', b'', c'')
  {
  }

  lemma Transitive(p: Pos, q: Pos, r: Pos)
    requires AtMost(p, q) && AtMost(q, r)
    ensures AtMost(p, r) && (Later(p, q) || Later(q, r) ==> Later(p, r))
  {
    if Later(p, q) && Later(q, r) {
      BeforeTransitive(Stage(p), Turns(p), Part(p), Stage(q), Turns(q), Part(q), Stage(r), Turns(r), Part(r));
    }
  }

  lemma ServerBehind(cfg: Config, c: Conn, x: Pos, y: Pos)
    requires Transferable(cfg) && ServerOk(cfg, c, x, y)
    ensures AtMost(y, Reply(cfg, x))
  {
    PositionGrows(cfg, Core(c.gate, y), c.todo, c.main);
  }

  lemma ClientBehind(cfg: Config, c: Conn, y: Pos, x: Pos)
    requires Transferable(cfg) && ClientOk(cfg, c, y, x)
    ensures AtMost(x, Answer(cfg, y))
  {
    if Transfers(y) {
      TransferBehind(cfg, c, y, x);
    } else {
      PositionGrows(cfg, Core(c.gate, x), c.todo, c.main);
    }
  }

  /** With no pack left, every chunk of the last one is handled. */
  lemma NoneLeft(cfg: Config, q: Queue, i: nat, h: nat, pending: bool)
    requires Transferable(cfg) && Transferring(cfg, q, i, h, pending) && q.amount == 0
    ensures i == |cfg.order| - 1 && h == Count(cfg, i) && !pending
    ensures forall j | 0 <= j < |cfg.order| :: Arrived(q.downloads, cfg.order[j].id)
  {
    LeftZero(cfg, q.downloads, |cfg.order|);
    assert Arrived(q.downloads, cfg.order[|cfg.order| - 1].id);
    assert Arrived(q.downloads, cfg.order[i].id);
  }

  lemma AskedBehind(cfg: Config, d: Download, y: Pos)
    requires Transferable(cfg) && On(cfg, y) && Transfers(y)
    requires Fetching(cfg, d, y.i, PartOf(y), true) || Fetching(cfg, d, y.i, PartOf(y), false)
    ensures AtMost(Asked(cfg, y.i, PartOf(y), d.at), Answer(cfg, y))
  {
    CountPositive(cfg, y.i);
  }

  lemma TransferBehind(cfg: Config, c: Conn, y: Pos, x: Pos)
    requires Transferable(cfg) && On(cfg, y) && Transfers(y)
    requires TransferOk(cfg, c, y, x)
    ensures AtMost(x, Answer(cfg, y))
  {
    hide Holding, Path, Idle, Eager, Rested, WellBuffered, IdsFrom, ClientGate, Min;
    if c.queue.amount == 0 {
      NoneLeft(cfg, c.queue, y.i, PartOf(y), |c.todo| == 2);
    } else {
      AskedBehind(cfg, c.queue.downloads[cfg.order[y.i].id], y);
    }
  }

  /** A packet that the dialer has not handled yet is one the listener wrote, and so on round the circle. */
  lemma ReplyTells(cfg: Config, x: Pos, y: Pos)
    requires Transferable(cfg) && On(cfg, x) && Up(x) && On(cfg, y) && !Up(y) && AtMost(y, Reply(cfg, x))
    ensures Stage(y) >= 1 ==> AtMost(XSettings, x)
    ensures Stage(y) >= 2 ==> AtMost(XLogin, x)
    ensures y.YChunk? ==> AtMost(XRequest(y.i, y.k), x)
    ensures Stage(y) >= 6 ==> AtMost(XAll, x)
  {
  }

  lemma AnswerTells(cfg: Config, y: Pos, x: Pos)
    requires Transferable(cfg) && On(cfg, y) && !Up(y) && AtMost(x, Answer(cfg, y))
    ensures Later(XCompleted, x) ==> AtMost(YItems, y)
  {
  }
}
