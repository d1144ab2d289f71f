/** The dialer's steps outside the transfer keep the invariant. */
module SessionClientSteps {
  import opened Wire
  import opened Packs
  import opened Session
  import opened SessionScript
  import opened SessionSettle
  import opened SessionSide
  import opened SessionServer
  import opened SessionClient
  import opened SessionTransfer
  import opened SessionInvariant

  /** How the listener's progress bounds the dialer's: what it sent answers something the dialer wrote. */
  lemma Circle(cfg: Config, s: State, m: Marks)
    requires ValidConfig(cfg) && Inv(cfg, s, m)
    ensures AtMost(m.handledUp, m.writtenUp) && AtMost(m.writtenUp, Answer(cfg, m.handledDown))
    ensures AtMost(m.handledDown, m.writtenDown) && AtMost(m.writtenDown, Reply(cfg, m.handledUp))
    ensures On(cfg, m.writtenDown) && !Up(m.writtenDown) && On(cfg, m.writtenUp) && Up(m.writtenUp)
  {
    ServerBehind(cfg, s.server, m.handledUp, m.writtenDown);
    ClientBehind(cfg, s.client, m.handledDown, m.writtenUp);
    StreamHead(cfg, m.handledUp, s.server.inbox, s.up, s.client.buffer, m.writtenUp);
    StreamHead(cfg, m.handledDown, s.client.inbox, s.down, s.server.buffer, m.writtenDown);
  }

  /** A packet of the listener is there: what the dialer must have written, and the listener handled, before. */
  lemma Answered(cfg: Config, s: State, m: Marks)
    requires ValidConfig(cfg) && Inv(cfg, s, m) && (s.client.inbox != [] || s.down != [])
    ensures var y := m.handledDown;
      && On(cfg, y) && !Up(y) && Next(cfg, y).Turn? && On(cfg, Next(cfg, y).next) && !Up(Next(cfg, y).next)
      && (Stage(Next(cfg, y).next) >= 1 ==> AtMost(XSettings, m.handledUp) && AtMost(XSettings, m.writtenUp))
      && (Stage(Next(cfg, y).next) >= 2 ==> AtMost(XLogin, m.handledUp) && AtMost(XLogin, m.writtenUp))
      && (Next(cfg, y).next.YChunk? ==> AtMost(XRequest(Next(cfg, y).next.i, Next(cfg, y).next.k), m.writtenUp))
      && (Stage(Next(cfg, y).next) >= 6 ==> AtMost(XAll, m.writtenUp))
  {
    var y := m.handledDown;
    Circle(cfg, s, m);
    StreamHead(cfg, y, s.client.inbox, s.down, s.server.buffer, m.writtenDown);
    NextOn(cfg, y);
    var y' := Next(cfg, y).next;
    Transitive(y', m.writtenDown, Reply(cfg, m.handledUp));
    ReplyTells(cfg, m.handledUp, y');
    if Stage(y') >= 1 { Transitive(XSettings, m.handledUp, m.writtenUp); }
    if Stage(y') >= 2 { Transitive(XLogin, m.handledUp, m.writtenUp); }
    if y'.YChunk? { Transitive(XRequest(y'.i, y'.k), m.handledUp, m.writtenUp); }
    if Stage(y') >= 6 { Transitive(XAll, m.handledUp, m.writtenUp); }
  }

  lemma Antisymmetric(p: Pos, q: Pos)
    requires AtMost(p, q)
    ensures !Later(q, p)
    ensures AtMost(q, p) ==> p == q
  {
  }

  /** A packet is there to handle: then the dialer has written everything it was going to write before. */
  lemma ClientRests(cfg: Config, s: State, m: Marks)
    requires ValidConfig(cfg) && Inv(cfg, s, m) && s.client.todo == [] && (s.client.inbox != [] || s.down != [])
    requires !Transfers(m.handledDown)
    ensures var y := m.handledDown;
      && Idle(s.client.main) && Rested(s.client.main) == ClientRest(y)
      && Core(s.client.gate, m.writtenUp) == ClientGoal(cfg, y).core
  {
    var y, x, main := m.handledDown, m.writtenUp, s.client.main;
    Answered(cfg, s, m);
    if !Idle(main) {
      PositionGrows(cfg, Core(s.client.gate, x), [], main);
      NextOn(cfg, y);
      Antisymmetric(if y.Y0? then XSettings else XLogin, x);
      assert false;
    }
    IdleSettles(cfg, Core(s.client.gate, x), [], main);
  }

  lemma TransferModes(cfg: Config, c: Conn, y: Pos, x: Pos, p: Packet)
    requires ValidConfig(cfg) && On(cfg, y) && Transfers(y) && TransferOk(cfg, c, y, x)
    requires p.DataInfo? || p.ChunkData? || p.ResourcePackStack?
    ensures ModeOf(cfg, p) == c.gate.dec
  {
    hide Agreed, Ordered, Tracks, Holding, RestOk, Idle, Eager, Rested;
  }

  /** The next batch was encoded in the mode the dialer decodes in. */
  lemma ClientModes(cfg: Config, s: State, m: Marks)
    requires ValidConfig(cfg) && s.down != [] && CanDecode(s.client, s.down) && Inv(cfg, s, m)
    ensures s.client.gate.dec == s.down[0].mode
  {
    var y := m.handledDown;
    StreamHead(cfg, y, [], s.down, s.server.buffer, m.writtenDown);
    if Transfers(y) {
      TransferModes(cfg, s.client, y, m.writtenUp, Next(cfg, y).packet);
    } else {
      ClientRests(cfg, s, m);
      ClientExpectsNext(cfg, y);
    }
  }

  lemma ClientDecodes(cfg: Config, s: State, m: Marks)
    requires ValidConfig(cfg) && Inv(cfg, s, m) && Enabled(cfg, s, ClientDecode)
    ensures Inv(cfg, Act(cfg, s, ClientDecode), m)
  {
    ClientModes(cfg, s, m);
    StreamDecoded(cfg, m.handledDown, s.down, s.server.buffer, m.writtenDown);
    ClientTook(cfg, s.client, s.client.(inbox := s.down[0].packets), m.handledDown, m.writtenUp);
  }

  /** The inbox and the deferred packets are no part of where the dialer stands. */
  lemma ClientTook(cfg: Config, c: Conn, c': Conn, y: Pos, x: Pos)
    requires ValidConfig(cfg) && ClientOk(cfg, c, y, x) && c' == c.(inbox := c'.inbox)
    ensures ClientOk(cfg, c', y, x)
  {
    if Transfers(y) {
      TransferTook(cfg, c, c', y, x);
    } else {
      QuietTook(cfg, c, c', y, x);
    }
  }

  lemma TransferTook(cfg: Config, c: Conn, c': Conn, y: Pos, x: Pos)
    requires Transferable(cfg) && On(cfg, y) && Transfers(y) && c' == c.(inbox := c'.inbox) && TransferOk(cfg, c, y, x)
    ensures TransferOk(cfg, c', y, x)
  {
    hide Tracks, Holding, RestOk, Idle, Eager, Rested, On;
  }

  lemma QuietTook(cfg: Config, c: Conn, c': Conn, y: Pos, x: Pos)
    requires Transferable(cfg) && On(cfg, y) && !Up(y) && c' == c.(inbox := c'.inbox) && QuietOk(cfg, c, y, x)
    ensures QuietOk(cfg, c', y, x)
  {
    hide Settle, Idle, Eager, Complete, QuietQueue, ClientGoal;
  }

  lemma ClientFlushes(cfg: Config, s: State, m: Marks)
    requires ValidConfig(cfg) && Inv(cfg, s, m)
    ensures Inv(cfg, FlushUp(s, s.client), m)
  {
    ClientBuffered(cfg, s.client, m.handledDown, m.writtenUp);
    StreamFlushed(cfg, m.handledUp, s.server.inbox, s.up, s.client, m.writtenUp);
    ClientEmptied(cfg, s.client, m.handledDown, m.writtenUp);
  }

  lemma ClientBuffered(cfg: Config, c: Conn, y: Pos, x: Pos)
    requires ValidConfig(cfg) && ClientOk(cfg, c, y, x)
    ensures WellBuffered(cfg, c)
  {
  }

  lemma ClientEmptied(cfg: Config, c: Conn, y: Pos, x: Pos)
    requires ValidConfig(cfg) && ClientOk(cfg, c, y, x)
    ensures ClientOk(cfg, Emptied(c), y, x)
  {
    if Transfers(y) {
      TransferEmptied(cfg, c, y, x);
    } else {
      SideEmptied(cfg, c, x, ClientGoal(cfg, y));
    }
  }

  lemma SideEmptied(cfg: Config, c: Conn, x: Pos, goal: Settled)
    requires Transferable(cfg) && SideOk(cfg, c, x, goal)
    ensures SideOk(cfg, Emptied(c), x, goal)
  {
  }

  lemma TransferEmptied(cfg: Config, c: Conn, y: Pos, x: Pos)
    requires ValidConfig(cfg) && On(cfg, y) && Transfers(y) && TransferOk(cfg, c, y, x)
    ensures TransferOk(cfg, Emptied(c), y, x)
  {
  }

  // --------------------------------------------------------------- operations

  /** A step of the dialer that wrote what its script says, or nothing. */
  lemma ClientMoved(cfg: Config, s: State, m: Marks, c: Conn, op: Op)
    requires ValidConfig(cfg) && Inv(cfg, s, m)
    requires var x := PosAfter(cfg, m.writtenUp, op);
      Moved(cfg, s.client, c, op, m.writtenUp) && ClientOk(cfg, c, m.handledDown, x)
    ensures var s' := if op.Flush? then s.(client := c, up := Sent(s.client, s.up)) else s.(client := c);
      Inv(cfg, s', m.(writtenUp := PosAfter(cfg, m.writtenUp, op)))
  {
    if op.Put? {
      StreamWritten(cfg, m.handledUp, s.server.inbox, s.up, s.client.buffer, m.writtenUp);
      PathGrows(cfg, X0, s.client.written, m.writtenUp);
    } else if op.Flush? {
      ClientBuffered(cfg, s.client, m.handledDown, m.writtenUp);
      StreamFlushed(cfg, m.handledUp, s.server.inbox, s.up, s.client, m.writtenUp);
    }
  }

  /** The dialing goroutine after a hand-over or an operation of its own. */
  lemma DialsOn(cfg: Config, c: Conn, y: Pos, x: Pos)
    requires ValidConfig(cfg) && ClientOk(cfg, c, y, x)
    ensures CanMain(c) ==> DialsOk(y, c.main[1..])
    ensures c.main != [] && c.main[0].Await? ==> DialsOk(y, c.main[1..])
  {
    hide AllGone;
  }

  lemma QuietStep(cfg: Config, s: State, m: Marks) returns (m': Marks)
    requires ValidConfig(cfg) && Inv(cfg, s, m) && Enabled(cfg, s, ClientStep) && !Transfers(m.handledDown)
    ensures Inv(cfg, Act(cfg, s, ClientStep), m')
  {
    hide Agreed, Ordered, Path, QuietQueue, Complete;
    var c, y, x := s.client, m.handledDown, m.writtenUp;
    var op := c.todo[0];
    SideStep(cfg, c, x, ClientGoal(cfg, y));
    DialsOn(cfg, c, y, x);
    var c' := After(Step(c), op);
    assert DialsOk(y, c'.main);
    ClientMoved(cfg, s, m, c', op);
    m' := m.(writtenUp := PosAfter(cfg, x, op));
  }

  lemma QuietMain(cfg: Config, s: State, m: Marks) returns (m': Marks)
    requires ValidConfig(cfg) && Inv(cfg, s, m) && Enabled(cfg, s, ClientMain) && !Transfers(m.handledDown)
    ensures Inv(cfg, Act(cfg, s, ClientMain), m')
  {
    var c, y, x := s.client, m.handledDown, m.writtenUp;
    var op := c.main[0];
    SideMain(cfg, c, x, ClientGoal(cfg, y));
    DialsOn(cfg, c, y, x);
    var c' := After(MainStep(c), op);
    assert DialsOk(y, c'.main);
    ClientMoved(cfg, s, m, c', op);
    m' := m.(writtenUp := PosAfter(cfg, x, op));
  }

  // ------------------------------------------------------------------ receiving

  /** What a handler leaves of a Conn. */
  function Taken(c: Conn, h: Handling): Conn
    requires h.Does? && c.inbox != []
  {
    c.(inbox := c.inbox[1..], queue := h.q, todo := h.ops, handled := c.handled + [c.inbox[0]])
  }

  /** Handling a packet, when the handler is known to lead on. */
  lemma QuietTakes(cfg: Config, c: Conn, y: Pos, y': Pos, x: Pos, main: seq<Op>)
    requires ValidConfig(cfg) && On(cfg, y) && On(cfg, y') && !Up(y) && !Up(y') && !Transfers(y')
    requires c.todo == [] && c.inbox != [] && !c.failed && WellBuffered(cfg, c) && Eager(c.main) && On(cfg, x)
    requires Idle(c.main) && Rested(c.main) == main && DialsOk(y', c.main)
    requires ClientHandles(cfg, c.gate, c.queue, x, main, c.inbox[0], y')
    requires var h := HandleDown(cfg, c.gate, c.queue, c.inbox[0]);
      && AllGone(h.q) && (Stage(y') >= 6 ==> Complete(cfg, h.q))
      && (h.ops != [] && Switches(h.ops[0]) ==> c.buffer == [])
    requires c.deferred == Deferred(y')
    ensures ClientOk(cfg, Taken(c, HandleDown(cfg, c.gate, c.queue, c.inbox[0])), y', x)
  {
    var h := HandleDown(cfg, c.gate, c.queue, c.inbox[0]);
    IdleSettles(cfg, Core(c.gate, x), h.ops, c.main);
  }

  /** Where a packet is not deferred, its handler runs. */
  lemma ReceiveHandles(cfg: Config, c: Conn)
    requires c.inbox != [] && !Defers(c.gate, c.inbox[0]) && HandleDown(cfg, c.gate, c.queue, c.inbox[0]).Does?
    ensures Receive(cfg, c, false) == Taken(c, HandleDown(cfg, c.gate, c.queue, c.inbox[0]))
  {
  }

  lemma QuietHandles(cfg: Config, q: Queue, y: Pos, y': Pos)
    requires ValidConfig(cfg) && On(cfg, y) && !Up(y) && !Transfers(y) && Next(cfg, y).Turn? && y' == Next(cfg, y).next
    requires !ForUser(Next(cfg, y).packet) && !Next(cfg, y).packet.DataInfo?
    requires On(cfg, y') && !Up(y') && QuietQueue(cfg, q, y)
    requires Next(cfg, y).packet.ResourcePackStack? ==> Acceptable(cfg)
    ensures ClientHandles(cfg, ClientGate(cfg, y), q, Answer(cfg, y), ClientRest(y), Next(cfg, y).packet, y')
  {
    match y
    case Y0 => HandlesNetworkSettings(cfg, q);
    case YSettings =>
      if cfg.encrypted { HandlesServerHandshake(cfg, q); } else { HandlesLoginSuccess(cfg, q, y); }
    case YHandshake => HandlesLoginSuccess(cfg, q, y);
    case YStatus => HandlesAnnouncement(cfg, q);
    case YInfo => HandlesEmptyStack(cfg, q);
    case YStack => HandlesDimension(cfg, q);
    case YVoxel => HandlesStartGame(cfg, q);
    case YStart => HandlesItems(cfg, q);
    case YItems => HandlesRadiusUpdate(cfg, q);
    case YRadius => HandlesPlayerSpawn(cfg, q);
    case _ =>
  }

  lemma HandlesEmptyStack(cfg: Config, q: Queue)
    requires ValidConfig(cfg) && cfg.order == [] && Announced(cfg, q) && Acceptable(cfg)
    ensures ClientHandles(cfg, ClientGate(cfg, YInfo), q, XAll, [Await], ResourcePackStack(cfg.packs), YStack)
  {
    assert q.held + cfg.order == q.held;
    HandlesStack(cfg, ClientGate(cfg, YInfo), q);
  }

  /** Outside the transfer, or into it: a packet of the user's is deferred and changes nothing else. */
  lemma UserReceives(cfg: Config, c: Conn, y: Pos, x: Pos)
    requires ValidConfig(cfg) && ClientOk(cfg, c, y, x) && !Transfers(y) && c.todo == [] && c.inbox != []
    requires Next(cfg, y).Turn? && Next(cfg, y).packet == c.inbox[0] && ForUser(c.inbox[0])
    requires c.gate == ClientGate(cfg, y)
    ensures ClientOk(cfg, Receive(cfg, c, false), Next(cfg, y).next, x)
  {
    ClientExpectsNext(cfg, y);
    UserPacketsChangeNothing(cfg, y);
    var c' := Receive(cfg, c, false);
    assert c' == c.(inbox := c.inbox[1..], deferred := c.deferred + [c.inbox[0]]);
    assert Deferred(Next(cfg, y).next) == Deferred(y) + [c.inbox[0]];
  }

  /** A packet for a handler, outside the transfer. */
  lemma QuietReceives(cfg: Config, c: Conn, y: Pos, x: Pos)
    requires ValidConfig(cfg) && ClientOk(cfg, c, y, x) && !Transfers(y) && c.todo == [] && c.inbox != []
    requires Next(cfg, y).Turn? && Next(cfg, y).packet == c.inbox[0]
    requires !ForUser(c.inbox[0]) && !c.inbox[0].DataInfo? && (c.inbox[0].ResourcePackStack? ==> Acceptable(cfg))
    requires On(cfg, Next(cfg, y).next) && !Up(Next(cfg, y).next)
    requires Idle(c.main) && Rested(c.main) == ClientRest(y) && Core(c.gate, x) == ClientGoal(cfg, y).core
    requires c.inbox[0].NetworkSettings? || c.inbox[0].ServerToClientHandshake? ==> c.buffer == []
    ensures ClientOk(cfg, Receive(cfg, c, false), Next(cfg, y).next, x)
  {
    hide Ordered, Complete, Accepts, Settle;
    var y' := Next(cfg, y).next;
    ClientExpectsNext(cfg, y);
    QuietHandles(cfg, c.queue, y, y');
    assert !Defers(c.gate, c.inbox[0]);
    ReceiveHandles(cfg, c);
    QuietQueueKept(cfg, c.gate, c.queue, y, y', c.inbox[0]);
    QuietTakes(cfg, c, y, y', x, ClientRest(y));
  }

  /** What handlers outside the transfer make of the queue. */
  lemma QuietQueueKept(cfg: Config, g: Gate, q: Queue, y: Pos, y': Pos, p: Packet)
    requires ValidConfig(cfg) && On(cfg, y) && !Up(y) && !Transfers(y) && QuietQueue(cfg, q, y) && AllGone(q)
    requires Next(cfg, y) == Turn(p, y') && !p.DataInfo? && (Stage(y) >= 6 ==> Complete(cfg, q))
    requires HandleDown(cfg, g, q, p).Does?
    ensures var h := HandleDown(cfg, g, q, p);
      && AllGone(h.q) && (Stage(y') >= 6 ==> Complete(cfg, h.q))
      && (h.ops != [] && Switches(h.ops[0]) ==> p.NetworkSettings? || p.ServerToClientHandshake?)
  {
    hide Ordered, Sort, Accepts, Left, Has, HandleDataInfo, HandleChunkData;
  }

  /** The encoder is about to change: the listener has already handled everything written, so nothing is buffered. */
  lemma SwitchIsDrained(cfg: Config, s: State, m: Marks)
    requires ValidConfig(cfg) && Inv(cfg, s, m) && s.client.inbox != []
    requires m.handledDown.Y0? || (m.handledDown.YSettings? && cfg.encrypted)
    ensures s.client.buffer == []
  {
    Answered(cfg, s, m);
    Circle(cfg, s, m);
    var x := if m.handledDown.Y0? then XSettings else XLogin;
    Transitive(x, m.handledUp, m.writtenUp);
    Antisymmetric(x, m.handledUp);
    Antisymmetric(x, m.writtenUp);
    assert m.handledUp == m.writtenUp by {
      Transitive(m.handledUp, m.writtenUp, x);
    }
    StreamHead(cfg, m.handledUp, s.server.inbox, s.up, s.client.buffer, m.writtenUp);
  }
}
