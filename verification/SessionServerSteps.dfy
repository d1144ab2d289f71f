/** The listener's steps keep the invariant. */
module SessionServerSteps {
  import opened Wire
  import opened Packs
  import opened Session
  import opened SessionScript
  import opened SessionSettle
  import opened SessionSide
  import opened SessionServer
  import opened SessionInvariant

  lemma {:induction false} MainShrinks(cfg: Config, k: Core, todo: seq<Op>, main: seq<Op>)
    requires Transferable(cfg) && Settle(cfg, k, todo, main).Settled?
    ensures |Settle(cfg, k, todo, main).main| <= |main|
    decreases |main| + |todo|
  {
    if !Blocked(main) {
      MainShrinks(cfg, Do(cfg, k, main[0]).value, todo, main[1..]);
    } else if todo == [] {
    } else if todo[0].Signal? {
      MainShrinks(cfg, k, todo[1..], main[1..]);
    } else {
      MainShrinks(cfg, Do(cfg, k, todo[0]).value, todo[1..], main);
    }
  }

  /**
   * A packet is there to handle: then the listener has written everything it was going to write before, whichever
   * goroutine was to write it.
   */
  lemma ServerRests(cfg: Config, s: State, m: Marks)
    requires ValidConfig(cfg) && Inv(cfg, s, m) && s.server.todo == [] && (s.server.inbox != [] || s.up != [])
    ensures var x := m.handledUp;
      && Next(cfg, x).Turn? && On(cfg, Next(cfg, x).next)
      && Idle(s.server.main) && Rested(s.server.main) == ServerRest(cfg, x)
      && Core(s.server.gate, m.writtenDown) == ServerGoal(cfg, x).core
  {
    var x, main := m.handledUp, s.server.main;
    StreamHead(cfg, x, s.server.inbox, s.up, s.client.buffer, m.writtenUp);
    if !Idle(main) {
      PositionGrows(cfg, Core(s.server.gate, m.writtenDown), [], main);
      assert Later(m.writtenDown, YItems);
      ClientBehind(cfg, s.client, m.handledDown, m.writtenUp);
      AnswerTells(cfg, m.handledDown, m.writtenUp);
      StreamHead(cfg, m.handledDown, s.client.inbox, s.down, s.server.buffer, m.writtenDown);
      Transitive(YItems, m.handledDown, m.writtenDown);
      Transitive(YItems, m.writtenDown, YItems);
      assert false;
    }
    IdleSettles(cfg, Core(s.server.gate, m.writtenDown), [], main);
  }

  lemma ServerDecodes(cfg: Config, s: State, m: Marks)
    requires ValidConfig(cfg) && Inv(cfg, s, m) && Enabled(cfg, s, ServerDecode)
    ensures Inv(cfg, Act(cfg, s, ServerDecode), m)
  {
    hide Ordered, ClientOk, Path;
    ServerRests(cfg, s, m);
    StreamHead(cfg, m.handledUp, [], s.up, s.client.buffer, m.writtenUp);
    ServerExpectsNext(cfg, m.handledUp);
    StreamDecoded(cfg, m.handledUp, s.up, s.client.buffer, m.writtenUp);
  }

  lemma ServerFlushes(cfg: Config, s: State, m: Marks)
    requires ValidConfig(cfg) && Inv(cfg, s, m)
    ensures Inv(cfg, FlushDown(s, s.server), m)
  {
    hide PendingFrom;
    StreamFlushed(cfg, m.handledDown, s.client.inbox, s.down, s.server, m.writtenDown);
  }

  lemma ServerReceives(cfg: Config, s: State, m: Marks) returns (m': Marks)
    requires ValidConfig(cfg) && Inv(cfg, s, m) && Enabled(cfg, s, ServerReceive)
    ensures Inv(cfg, Act(cfg, s, ServerReceive), m')
  {
    var c, x := s.server, m.handledUp;
    ServerRests(cfg, s, m);
    StreamHandled(cfg, x, c.inbox, s.up, s.client.buffer, m.writtenUp);
    ServerExpectsNext(cfg, x);
    ServerHandlesNext(cfg, c.queue, x);
    var x' := Next(cfg, x).next;
    m' := m.(handledUp := x');
    var h := HandleUp(cfg, c.gate, c.queue, c.inbox[0]);
    IdleSettles(cfg, Core(c.gate, m.writtenDown), h.ops, c.main);
    NextOn(cfg, x);
    assert ServesOk(cfg, x', c.main);
    ServerTakes(cfg, c, x, x', m.writtenDown, h);
  }

  lemma ServerTakes(cfg: Config, c: Conn, x: Pos, x': Pos, y: Pos, h: Handling)
    requires ValidConfig(cfg) && ServerOk(cfg, c, x, y) && c.todo == [] && Idle(c.main) && c.inbox != []
    requires h.Does? && On(cfg, x') && Up(x') && QueueOk(cfg, h.q, x') && ServesOk(cfg, x', c.main)
    requires Guarded(h.ops) && SignalsLast(h.ops) && (h.ops != [] ==> !Switches(h.ops[0]))
    requires Settle(cfg, Core(c.gate, y), h.ops, c.main) == ServerGoal(cfg, x')
    ensures ServerOk(cfg, c.(inbox := c.inbox[1..], queue := h.q, todo := h.ops, handled := c.handled + [c.inbox[0]]), x', y)
  {
  }

  /** A step of the listener that wrote what its script says, or nothing. */
  lemma ServerMoved(cfg: Config, s: State, m: Marks, c: Conn, op: Op)
    requires ValidConfig(cfg) && Inv(cfg, s, m)
    requires var y := PosAfter(cfg, m.writtenDown, op);
      Moved(cfg, s.server, c, op, m.writtenDown) && ServerOk(cfg, c, m.handledUp, y)
    ensures var s' := if op.Flush? then s.(server := c, down := Sent(s.server, s.down)) else s.(server := c);
      Inv(cfg, s', m.(writtenDown := PosAfter(cfg, m.writtenDown, op)))
  {
    if op.Put? {
      StreamWritten(cfg, m.handledDown, s.client.inbox, s.down, s.server.buffer, m.writtenDown);
      PathGrows(cfg, Y0, s.server.written, m.writtenDown);
    } else if op.Flush? {
      StreamFlushed(cfg, m.handledDown, s.client.inbox, s.down, s.server, m.writtenDown);
    }
  }

  lemma ServerSteps(cfg: Config, s: State, m: Marks) returns (m': Marks)
    requires ValidConfig(cfg) && Inv(cfg, s, m) && Enabled(cfg, s, ServerStep)
    ensures Inv(cfg, Act(cfg, s, ServerStep), m')
  {
    var c, x, y := s.server, m.handledUp, m.writtenDown;
    var op := c.todo[0];
    SideStep(cfg, c, y, ServerGoal(cfg, x));
    var c' := After(Step(c), op);
    if op.Signal? {
      MainShrinks(cfg, Core(c'.gate, y), c'.todo, c'.main);
    }
    assert ServesOk(cfg, x, c'.main);
    ServerMoved(cfg, s, m, c', op);
    m' := m.(writtenDown := PosAfter(cfg, y, op));
    StepKeepsBuffer(c);
  }

  lemma StepKeepsBuffer(c: Conn)
    requires CanStep(c)
    ensures c.todo[0].Flush? ==> Step(c).buffer == c.buffer && Step(c).gate == c.gate
  {
  }

  lemma ServerMains(cfg: Config, s: State, m: Marks) returns (m': Marks)
    requires ValidConfig(cfg) && Inv(cfg, s, m) && Enabled(cfg, s, ServerMain)
    ensures Inv(cfg, Act(cfg, s, ServerMain), m')
  {
    var c, x, y := s.server, m.handledUp, m.writtenDown;
    var op := c.main[0];
    SideMain(cfg, c, y, ServerGoal(cfg, x));
    var c' := After(MainStep(c), op);
    assert ServesOk(cfg, x, c'.main);
    ServerMoved(cfg, s, m, c', op);
    m' := m.(writtenDown := PosAfter(cfg, y, op));
  }
}
