/** One side of a session on its way to where it settles: what any single step keeps. */
module SessionSide {
  import opened Wire
  import opened Packs
  import opened Session
  import opened SessionScript
  import opened SessionSettle

  /** On its way to a core and to what then remains of its second goroutine. */
  predicate SideOk(cfg: Config, c: Conn, pos: Pos, goal: Settled)
    requires Transferable(cfg)
  {
    && On(cfg, pos)
    && goal.Settled?
    && Settle(cfg, Core(c.gate, pos), c.todo, c.main) == goal
    && (c.todo != [] ==> Idle(c.main))
    && Eager(c.main)
    && SignalsLast(c.todo)
    && BufferOk(cfg, c)
    && !c.failed
  }

  /** The reader hands over in its last step only. */
  predicate SignalsLast(ops: seq<Op>)
  {
    forall j | 0 <= j < |ops| - 1 :: !ops[j].Signal?
  }

  function PosAfter(cfg: Config, pos: Pos, op: Op): Pos
    requires Transferable(cfg)
  {
    if op.Put? && On(cfg, pos) && Next(cfg, pos).Turn? then Next(cfg, pos).next else pos
  }

  /** The fields that only handlers and download goroutines change. */
  predicate SameQueues(c: Conn, c': Conn)
  {
    && c'.queue == c.queue
    && c'.inbox == c.inbox && c'.deferred == c.deferred && c'.failed == c.failed
  }

  /** An operation that writes takes the next packet of the script; a flush empties the buffer. */
  predicate Moved(cfg: Config, c: Conn, c': Conn, op: Op, pos: Pos)
    requires Transferable(cfg)
  {
    && SameQueues(c, c')
    && (op.Put? ==>
         && On(cfg, pos) && Next(cfg, pos) == Turn(op.p, PosAfter(cfg, pos, op))
         && c'.buffer == c.buffer + [op.p] && c'.written == c.written + [op.p])
    && (!op.Put? ==>
         PosAfter(cfg, pos, op) == pos && c'.written == c.written && c'.buffer == if op.Flush? then [] else c.buffer)
  }

  function After(c: Conn, op: Op): Conn { if op.Flush? then Emptied(c) else c }

  lemma PerformBuffers(cfg: Config, c: Conn, op: Op, pos: Pos)
    requires Transferable(cfg) && Do(cfg, Core(c.gate, pos), op).Some? && WellBuffered(cfg, c)
    requires Switches(op) ==> c.buffer == []
    ensures WellBuffered(cfg, After(Perform(c, op), op))
  {
  }

  /** What one operation changes, the lists of operations aside. */
  predicate Performs(cfg: Config, c: Conn, c': Conn, op: Op, pos: Pos)
    requires Transferable(cfg)
  {
    && Do(cfg, Core(c.gate, pos), op).Some?
    && Core(c'.gate, PosAfter(cfg, pos, op)) == Do(cfg, Core(c.gate, pos), op).value
    && On(cfg, PosAfter(cfg, pos, op))
    && WellBuffered(cfg, c')
    && Moved(cfg, c, c', op, pos)
  }

  lemma PerformPerforms(cfg: Config, c: Conn, op: Op, pos: Pos)
    requires Transferable(cfg) && On(cfg, pos) && Do(cfg, Core(c.gate, pos), op).Some? && WellBuffered(cfg, c)
    requires Switches(op) ==> c.buffer == []
    ensures Performs(cfg, c, After(Perform(c, op), op), op, pos)
  {
    PerformIsDo(cfg, c, op, pos);
    PerformBuffers(cfg, c, op, pos);
    if op.Put? { NextOn(cfg, pos); }
  }

  /** The order of performing an operation and taking it off its list does not matter. */
  lemma ListsApart(cfg: Config, c: Conn, op: Op, pos: Pos, todo: seq<Op>, main: seq<Op>)
    requires Transferable(cfg) && Performs(cfg, c, After(Perform(c, op), op), op, pos)
    ensures var c' := After(Perform(c.(todo := todo, main := main), op), op);
      && Performs(cfg, c, c', op, pos) && c'.todo == todo && c'.main == main
  {
    ListsCommute(c, op, todo, main);
    ListsDoNotMatter(cfg, c, After(Perform(c, op), op), op, pos, todo, main);
  }

  lemma ListsCommute(c: Conn, op: Op, todo: seq<Op>, main: seq<Op>)
    ensures After(Perform(c.(todo := todo, main := main), op), op) ==
            After(Perform(c, op), op).(todo := todo, main := main)
  {
  }

  lemma ListsDoNotMatter(cfg: Config, c: Conn, c': Conn, op: Op, pos: Pos, todo: seq<Op>, main: seq<Op>)
    requires Transferable(cfg) && Performs(cfg, c, c', op, pos)
    ensures Performs(cfg, c, c'.(todo := todo, main := main), op, pos)
  {
  }

  lemma Arrives(cfg: Config, c: Conn, c': Conn, op: Op, pos: Pos, goal: Settled)
    requires Transferable(cfg) && SideOk(cfg, c, pos, goal) && Performs(cfg, c, c', op, pos)
    requires Settle(cfg, Do(cfg, Core(c.gate, pos), op).value, c'.todo, c'.main) == goal
    requires c'.todo == c.todo || (c.todo != [] && op == c.todo[0] && c'.todo == c.todo[1..])
    requires c'.todo != [] ==> Idle(c'.main)
    requires c'.todo == c.todo != [] ==> op.Flush?
    requires Eager(c'.main)
    ensures SideOk(cfg, c', PosAfter(cfg, pos, op), goal)
  {
    if c.todo != [] {
      GuardedTail(c.todo);
    }
  }

  lemma SideStep(cfg: Config, c: Conn, pos: Pos, goal: Settled)
    requires Transferable(cfg) && SideOk(cfg, c, pos, goal) && CanStep(c)
    ensures !c.todo[0].Deliver?
    ensures var op := c.todo[0]; var c' := After(Step(c), op);
      && SideOk(cfg, c', PosAfter(cfg, pos, op), goal) && Moved(cfg, c, c', op, pos)
  {
    var op := c.todo[0];
    if op.Signal? {
      SignalKeeps(cfg, c, pos, goal);
    } else {
      StepSettles(cfg, Core(c.gate, pos), c.todo, c.main);
      PerformPerforms(cfg, c, op, pos);
      ListsApart(cfg, c, op, pos, c.todo[1..], c.main);
      StepIsPerform(c);
      Arrives(cfg, c, After(Step(c), op), op, pos, goal);
    }
  }

  lemma StepIsPerform(c: Conn)
    requires CanStep(c) && !c.todo[0].Signal? && !c.todo[0].Deliver?
    ensures Step(c) == Perform(c.(todo := c.todo[1..], main := c.main), c.todo[0])
  {
  }

  lemma SignalKeeps(cfg: Config, c: Conn, pos: Pos, goal: Settled)
    requires Transferable(cfg) && SideOk(cfg, c, pos, goal) && CanStep(c) && c.todo[0].Signal?
    ensures SideOk(cfg, Step(c), pos, goal) && Moved(cfg, c, Step(c), Signal, pos)
  {
    GuardedTail(c.todo);
  }

  lemma SideMain(cfg: Config, c: Conn, pos: Pos, goal: Settled)
    requires Transferable(cfg) && SideOk(cfg, c, pos, goal) && CanMain(c)
    ensures var op := c.main[0]; var c' := After(MainStep(c), op);
      && SideOk(cfg, c', PosAfter(cfg, pos, op), goal) && Moved(cfg, c, c', op, pos)
  {
    var op := c.main[0];
    PerformPerforms(cfg, c, op, pos);
    ListsApart(cfg, c, op, pos, c.todo, c.main[1..]);
    MainIsPerform(c);
    Arrives(cfg, c, After(MainStep(c), op), op, pos, goal);
  }

  lemma MainIsPerform(c: Conn)
    requires CanMain(c)
    ensures MainStep(c) == Perform(c.(todo := c.todo, main := c.main[1..]), c.main[0])
  {
  }
}
