/**
 * What one side becomes once its goroutines have done what they have left to do. Only a fold over operations: whether a
 * packet may be written, and in which mode, is decided by the script.
 */
module SessionSettle {
  import opened Wire
  import opened Packs
  import opened Session
  import opened SessionScript

  /** The gate of a Conn, and the position of what it wrote on its script. */
  datatype Core = Core(gate: Gate, pos: Pos)

  function FinalMode(cfg: Config): Mode { if cfg.encrypted then Encrypted else Compressed }

  /** The mode a packet has to be encoded in. */
  function ModeOf(cfg: Config, p: Packet): Mode
  {
    match p
    case RequestNetworkSettings => Plain
    case NetworkSettings => Plain
    case Login => Compressed
    case ServerToClientHandshake => Compressed
    case _ => FinalMode(cfg)
  }

  /** One operation on the core; None if it writes what the script does not say, or in the wrong mode. */
  function Do(cfg: Config, k: Core, op: Op): Option<Core>
    requires Transferable(cfg)
  {
    if op.Put? then
      if On(cfg, k.pos) && Next(cfg, k.pos).Turn? && Next(cfg, k.pos).packet == op.p && ModeOf(cfg, op.p) == k.gate.enc
      then Some(k.(pos := Next(cfg, k.pos).next))
      else None
    else if op.Signal? || op.Await? || op.Deliver? then None
    else Some(k.(gate := Shift(k.gate, op)))
  }

  datatype Settled = Stuck | Settled(core: Core, main: seq<Op>)

  predicate Blocked(main: seq<Op>) { main == [] || main[0].Await? }

  /** Everything left to do: the second goroutine first, until it waits, then the reader. */
  function Settle(cfg: Config, k: Core, todo: seq<Op>, main: seq<Op>): Settled
    requires Transferable(cfg)
    decreases |main| + |todo|
  {
    if !Blocked(main) then
      match Do(cfg, k, main[0])
      case None => Stuck
      case Some(k') => Settle(cfg, k', todo, main[1..])
    else if todo == [] then Settled(k, main)
    else if todo[0].Signal? then
      if main == [] then Stuck else Settle(cfg, k, todo[1..], main[1..])
    else
      match Do(cfg, k, todo[0])
      case None => Stuck
      case Some(k') => Settle(cfg, k', todo[1..], main)
  }

  /** Nothing but flushes until the next wait. */
  predicate Idle(main: seq<Op>)
  {
    Blocked(main) || (main[0].Flush? && Idle(main[1..]))
  }

  function Rested(main: seq<Op>): seq<Op>
  {
    if !Blocked(main) && main[0].Flush? then Rested(main[1..]) else main
  }

  /** Whenever more than flushes is left until the next wait, a packet is among it; and modes are not its business. */
  predicate Eager(main: seq<Op>)
  {
    main == [] || (!Switches(main[0]) && (Idle(main) || Writes(main)) && Eager(main[1..]))
  }

  predicate Writes(main: seq<Op>)
  {
    !Blocked(main) && (main[0].Put? || Writes(main[1..]))
  }

  lemma {:induction false} IdleSettles(cfg: Config, k: Core, todo: seq<Op>, main: seq<Op>)
    requires Transferable(cfg) && Idle(main)
    ensures Settle(cfg, k, todo, main) == Settle(cfg, k, todo, Rested(main))
    ensures Blocked(Rested(main))
  {
    if !Blocked(main) {
      IdleSettles(cfg, k, todo, main[1..]);
    }
  }

  /** The reader's next operation, while the second goroutine is idle. */
  lemma {:induction false} StepSettles(cfg: Config, k: Core, todo: seq<Op>, main: seq<Op>)
    requires Transferable(cfg) && Idle(main) && todo != [] && !todo[0].Signal? && Settle(cfg, k, todo, main).Settled?
    ensures Do(cfg, k, todo[0]).Some?
    ensures Settle(cfg, Do(cfg, k, todo[0]).value, todo[1..], main) == Settle(cfg, k, todo, main)
  {
    if !Blocked(main) {
      StepSettles(cfg, k, todo, main[1..]);
    }
  }

  /** The reader's first operation, while the second goroutine waits. */
  lemma Goes(cfg: Config, k: Core, op: Op, ops: seq<Op>, main: seq<Op>)
    requires Transferable(cfg) && Blocked(main) && !op.Signal? && Do(cfg, k, op).Some?
    ensures Settle(cfg, k, [op] + ops, main) == Settle(cfg, Do(cfg, k, op).value, ops, main)
  {
    assert ([op] + ops)[1..] == ops;
  }

  /** The cores between operations that succeed one after the other. */
  predicate Trace(cfg: Config, ks: seq<Core>, ops: seq<Op>)
    requires Transferable(cfg)
  {
    |ks| == |ops| + 1 && forall i | 0 <= i < |ops| :: Do(cfg, ks[i], ops[i]) == Some(ks[i + 1])
  }

  predicate Steps(cfg: Config, ks: seq<Core>, ops: seq<Op>, i: nat)
    requires Transferable(cfg)
  {
    i < |ops| ==> i + 1 < |ks| && Do(cfg, ks[i], ops[i]) == Some(ks[i + 1])
  }

  lemma TraceOf(cfg: Config, ks: seq<Core>, ops: seq<Op>)
    requires Transferable(cfg) && |ks| == |ops| + 1 && |ops| <= 6
    requires Steps(cfg, ks, ops, 0) && Steps(cfg, ks, ops, 1) && Steps(cfg, ks, ops, 2)
    requires Steps(cfg, ks, ops, 3) && Steps(cfg, ks, ops, 4) && Steps(cfg, ks, ops, 5)
    ensures Trace(cfg, ks, ops)
  {
    forall i | 0 <= i < |ops| ensures Do(cfg, ks[i], ops[i]) == Some(ks[i + 1]) {
      assert Steps(cfg, ks, ops, i);
    }
  }

  lemma {:induction false} TraceSettles(cfg: Config, ks: seq<Core>, ops: seq<Op>, main: seq<Op>)
    requires Transferable(cfg) && Trace(cfg, ks, ops) && Blocked(main)
    ensures Settle(cfg, ks[0], ops, main) == Settled(ks[|ops|], main)
    decreases |ops|
  {
    if ops != [] {
      assert Do(cfg, ks[0], ops[0]) == Some(ks[1]);
      assert forall i | 0 <= i < |ops[1..]| :: ops[1..][i] == ops[i + 1] && ks[1..][i] == ks[i + 1];
      assert Trace(cfg, ks[1..], ops[1..]);
      TraceSettles(cfg, ks[1..], ops[1..], main);
    }
  }

  /** The same for the second goroutine, once the reader has nothing left to do. */
  lemma {:induction false} TraceSettlesMain(cfg: Config, ks: seq<Core>, main: seq<Op>)
    requires Transferable(cfg) && Trace(cfg, ks, main)
    ensures Settle(cfg, ks[0], [], main) == Settled(ks[|main|], [])
    decreases |main|
  {
    if main != [] {
      assert Do(cfg, ks[0], main[0]) == Some(ks[1]);
      assert forall i | 0 <= i < |main[1..]| :: main[1..][i] == main[i + 1] && ks[1..][i] == ks[i + 1];
      assert Trace(cfg, ks[1..], main[1..]);
      TraceSettlesMain(cfg, ks[1..], main[1..]);
    }
  }

  /** An operation of the second goroutine. */
  lemma GoesMain(cfg: Config, k: Core, op: Op, main: seq<Op>)
    requires Transferable(cfg) && !op.Await? && Do(cfg, k, op).Some?
    ensures Settle(cfg, k, [], [op] + main) == Settle(cfg, Do(cfg, k, op).value, [], main)
  {
    assert ([op] + main)[1..] == main;
  }

  /** A write of the second goroutine. */
  lemma MainWrites(cfg: Config, k: Core, p: Packet, y: Pos, main: seq<Op>)
    requires Transferable(cfg) && On(cfg, k.pos) && Next(cfg, k.pos) == Turn(p, y) && ModeOf(cfg, p) == k.gate.enc
    ensures Settle(cfg, k, [], [Put(p)] + main) == Settle(cfg, k.(pos := y), [], main)
  {
    GoesMain(cfg, k, Put(p), main);
  }

  /** A write of the reader, while the second goroutine waits. */
  lemma ReaderWrites(cfg: Config, k: Core, p: Packet, y: Pos, ops: seq<Op>, main: seq<Op>)
    requires Transferable(cfg) && Blocked(main)
    requires On(cfg, k.pos) && Next(cfg, k.pos) == Turn(p, y) && ModeOf(cfg, p) == k.gate.enc
    ensures Settle(cfg, k, [Put(p)] + ops, main) == Settle(cfg, k.(pos := y), ops, main)
  {
    Goes(cfg, k, Put(p), ops, main);
  }

  lemma ReaderFlushes(cfg: Config, k: Core, main: seq<Op>)
    requires Transferable(cfg) && Blocked(main)
    ensures Settle(cfg, k, [Flush], main) == Settled(k, main)
  {
    Goes(cfg, k, Flush, [], main);
    assert [Flush] == [Flush] + [];
  }

  lemma StepsPut(cfg: Config, ks: seq<Core>, ops: seq<Op>, i: nat, p: Packet, y: Pos)
    requires Transferable(cfg) && i < |ops| && i + 1 < |ks|
    requires ops[i] == Put(p) && ks[i + 1] == ks[i].(pos := y)
    requires On(cfg, ks[i].pos) && Next(cfg, ks[i].pos) == Turn(p, y) && ModeOf(cfg, p) == ks[i].gate.enc
    ensures Steps(cfg, ks, ops, i)
  {
  }

  lemma {:induction false} PositionGrows(cfg: Config, k: Core, todo: seq<Op>, main: seq<Op>)
    requires Transferable(cfg) && Settle(cfg, k, todo, main).Settled?
    ensures AtMost(k.pos, Settle(cfg, k, todo, main).core.pos)
    ensures Writes(main) ==> Later(k.pos, Settle(cfg, k, todo, main).core.pos)
    decreases |main| + |todo|
  {
    if !Blocked(main) {
      DoGrows(cfg, k, main[0]);
      PositionGrows(cfg, Do(cfg, k, main[0]).value, todo, main[1..]);
    } else if todo == [] {
    } else if todo[0].Signal? {
      PositionGrows(cfg, k, todo[1..], main[1..]);
    } else {
      DoGrows(cfg, k, todo[0]);
      PositionGrows(cfg, Do(cfg, k, todo[0]).value, todo[1..], main);
    }
  }

  lemma DoGrows(cfg: Config, k: Core, op: Op)
    requires Transferable(cfg) && Do(cfg, k, op).Some?
    ensures AtMost(k.pos, Do(cfg, k, op).value.pos)
    ensures op.Put? ==> Later(k.pos, Do(cfg, k, op).value.pos)
  {
    if op.Put? { NextOn(cfg, k.pos); }
  }

  /** Operations on a Conn and on its core agree. */
  lemma PerformIsDo(cfg: Config, c: Conn, op: Op, pos: Pos)
    requires Transferable(cfg) && Do(cfg, Core(c.gate, pos), op).Some?
    ensures Perform(c, op).gate == Do(cfg, Core(c.gate, pos), op).value.gate
  {
  }

  // -------------------------------------------------------------- the buffer

  /** Everything buffered will be encoded in the right mode, if it is encoded now. */
  predicate WellBuffered(cfg: Config, c: Conn)
  {
    forall i | 0 <= i < |c.buffer| :: ModeOf(cfg, c.buffer[i]) == c.gate.enc
  }

  predicate Switches(op: Op) { op.Enc? || op.Crypt? }

  /** Except for the first operation, the encoder changes only right after a flush. */
  predicate Guarded(ops: seq<Op>)
  {
    forall j | 0 < j < |ops| :: Switches(ops[j]) ==> ops[j - 1].Flush?
  }

  /** When the encoder is about to change, nothing is buffered. */
  predicate Drained(c: Conn)
  {
    c.todo != [] && Switches(c.todo[0]) ==> c.buffer == []
  }

  predicate BufferOk(cfg: Config, c: Conn) { WellBuffered(cfg, c) && Guarded(c.todo) && Drained(c) }

  lemma GuardedTail(ops: seq<Op>)
    requires Guarded(ops) && ops != []
    ensures Guarded(ops[1..])
    ensures |ops| > 1 && Switches(ops[1]) ==> ops[0].Flush?
  {
    forall j | 0 < j < |ops[1..]| ensures Switches(ops[1..][j]) ==> ops[1..][j - 1].Flush? {
      assert ops[1..][j] == ops[j + 1] && ops[1..][j - 1] == ops[j];
    }
  }
}
