/** Runs are finite: every step that an actor takes uses up some of a fixed amount of work. */
module SessionBound {
  import opened Wire
  import opened Packs
  import opened Session
  import opened SessionScript
  import opened SessionScripts
  import opened SessionSettle
  import opened SessionServer
  import opened SessionClient
  import opened SessionTransfer
  import opened SessionInvariant
  import opened SessionFetchSteps
  import opened SessionRuns
  import opened SessionReach
  import opened SessionTheorems

  // --------------------------------------------------------------------- work

  function OpWork(op: Op): nat { if op.Put? then 4 else if op.Deliver? then 14 else 1 }

  function OpsWork(ops: seq<Op>): nat
  {
    if ops == [] then 0 else OpWork(ops[0]) + OpsWork(ops[1..])
  }

  function RoutineWork(at: Routine): nat
  {
    match at
    case Asking(_) => 10
    case Listening(_) => 0
    case Storing(_, _) => 12
    case Finishing => 8
    case Gone => 0
  }

  /** The work of the download goroutines of the first n packs. */
  function FetchWork(cfg: Config, downloads: map<nat, Download>, n: nat): nat
    requires n <= |cfg.order|
  {
    if n == 0 then 0
    else
      FetchWork(cfg, downloads, n - 1)
      + if cfg.order[n - 1].id in downloads then RoutineWork(downloads[cfg.order[n - 1].id].at) else 0
  }

  /** What a side still has to do by itself. */
  function OwnWork(cfg: Config, c: Conn): nat
  {
    OpsWork(c.todo) + OpsWork(c.main) + OpsWork(c.queue.rest) + FetchWork(cfg, c.queue.downloads, |cfg.order|)
    + 3 * |c.buffer| + |c.inbox|
  }

  /** Packets written but not handled. */
  function Unhandled(sender: Conn, wire: seq<Batch>, receiver: Conn): nat
  {
    |receiver.inbox| + |Flat(wire)| + |sender.buffer|
  }

  /** What is left to do: a budget for every packet still to be handled, and what goroutines and the wire hold. */
  function Work(cfg: Config, s: State): int
    requires Transferable(cfg)
  {
    200 * (|UpScript(cfg)| - |s.client.written| + Unhandled(s.client, s.up, s.server))
    + 200 * (|DownScript(cfg)| - |s.server.written| + Unhandled(s.server, s.down, s.client))
    + OwnWork(cfg, s.server) + OwnWork(cfg, s.client) + 2 * |Flat(s.up)| + 2 * |Flat(s.down)|
  }

  lemma {:induction false} OpsWorkFirst(ops: seq<Op>)
    requires ops != []
    ensures OpsWork(ops) == OpWork(ops[0]) + OpsWork(ops[1..])
  {
  }

  lemma {:induction false} OpsWorkBounded(ops: seq<Op>)
    ensures OpsWork(ops) <= 14 * |ops|
  {
    if ops != [] {
      OpsWorkBounded(ops[1..]);
    }
  }

  lemma {:induction false} FetchWorkChanges(cfg: Config, downloads: map<nat, Download>, j: nat, d: Download, n: nat)
    requires Transferable(cfg) && j < |cfg.order| && n <= |cfg.order|
    ensures var was := if cfg.order[j].id in downloads then RoutineWork(downloads[cfg.order[j].id].at) else 0;
      FetchWork(cfg, downloads[cfg.order[j].id := d], n) ==
      FetchWork(cfg, downloads, n) + if j < n then RoutineWork(d.at) - was else 0
  {
    if n > 0 {
      FetchWorkChanges(cfg, downloads, j, d, n - 1);
    }
  }

  lemma {:induction false} FetchWorkNone(cfg: Config, n: nat)
    requires n <= |cfg.order|
    ensures FetchWork(cfg, map[], n) == 0
  {
    if n > 0 {
      FetchWorkNone(cfg, n - 1);
    }
  }

  // ------------------------------------------------------------------ handlers

  /** No handler leaves more than a handful of operations. */
  lemma UpHandlersAreShort(cfg: Config, g: Gate, q: Queue, p: Packet)
    requires HandleUp(cfg, g, q, p).Does?
    ensures var h := HandleUp(cfg, g, q, p);
      |h.ops| <= 6 && h.q.rest == q.rest && h.q.downloads == q.downloads
  {
  }

  lemma DownHandlersAreShort(cfg: Config, g: Gate, q: Queue, p: Packet)
    requires Transferable(cfg) && HandleDown(cfg, g, q, p).Does?
    ensures var h := HandleDown(cfg, g, q, p);
      |h.ops| <= 9 && h.q.rest == q.rest
      && FetchWork(cfg, h.q.downloads, |cfg.order|) <= FetchWork(cfg, q.downloads, |cfg.order|) + 10
  {
    var h := HandleDown(cfg, g, q, p);
    match p
    case ResourcePacksInfo(packs) => FetchWorkNone(cfg, |cfg.order|);
    case DataInfo(id, chunk, size) => FetchWorkAny(cfg, q.downloads, id, h.q.downloads[id], |cfg.order|);
    case ChunkData(id, index, data) => FetchWorkAny(cfg, q.downloads, id, h.q.downloads[id], |cfg.order|);
    case _ =>
  }

  /** A download of any UUID, whether of the order or not. */
  lemma {:induction false} FetchWorkAny(cfg: Config, downloads: map<nat, Download>, id: nat, d: Download, n: nat)
    requires Transferable(cfg) && n <= |cfg.order|
    requires if id in downloads then d.at == downloads[id].at || d.at == Asking(0) else d.at == Asking(0)
    ensures FetchWork(cfg, downloads[id := d], n) <= FetchWork(cfg, downloads, n) + 10
  {
    if exists j | 0 <= j < |cfg.order| :: cfg.order[j].id == id {
      var j :| 0 <= j < |cfg.order| && cfg.order[j].id == id;
      FetchWorkChanges(cfg, downloads, j, d, n);
    } else {
      FetchWorkOther(cfg, downloads, id, d, n);
    }
  }

  lemma {:induction false} FetchWorkOther(cfg: Config, downloads: map<nat, Download>, id: nat, d: Download, n: nat)
    requires n <= |cfg.order| && forall j | 0 <= j < |cfg.order| :: cfg.order[j].id != id
    ensures FetchWork(cfg, downloads[id := d], n) == FetchWork(cfg, downloads, n)
  {
    if n > 0 {
      FetchWorkOther(cfg, downloads, id, d, n - 1);
    }
  }

  // --------------------------------------------------------------------- steps

  /** A step of one side's goroutines: its own work gets less, and what it writes it also buffers. */
  predicate Spends(cfg: Config, c: Conn, c': Conn)
  {
    && OwnWork(cfg, c') < OwnWork(cfg, c)
    && |c'.written| - |c'.buffer| == |c.written| - |c.buffer| && c'.inbox == c.inbox
  }

  lemma FetchWorkMoves(cfg: Config, q: Queue, id: nat, d: Download)
    requires Transferable(cfg) && id in q.downloads
    ensures FetchWork(cfg, At(q, id, d).downloads, |cfg.order|) <= FetchWork(cfg, q.downloads, |cfg.order|) + RoutineWork(d.at)
    ensures (exists j | 0 <= j < |cfg.order| :: cfg.order[j].id == id) ==>
      FetchWork(cfg, At(q, id, d).downloads, |cfg.order|) ==
      FetchWork(cfg, q.downloads, |cfg.order|) + RoutineWork(d.at) - RoutineWork(q.downloads[id].at)
  {
    if exists j | 0 <= j < |cfg.order| :: cfg.order[j].id == id {
      var j :| 0 <= j < |cfg.order| && cfg.order[j].id == id;
      FetchWorkChanges(cfg, q.downloads, j, d, |cfg.order|);
    } else {
      FetchWorkOther(cfg, q.downloads, id, d, |cfg.order|);
    }
  }

  lemma StepSpends(cfg: Config, c: Conn)
    requires Transferable(cfg) && CanStep(c)
    ensures Spends(cfg, c, Step(c))
  {
    hide Transferable;
    OpsWorkFirst(c.todo);
    var op := c.todo[0];
    if op.Signal? {
      OpsWorkFirst(c.main);
    } else if op.Deliver? {
      var d := c.queue.downloads[op.id];
      FetchWorkMoves(cfg, c.queue, op.id, d.(at := Storing(d.at.k, op.data)));
    }
  }

  lemma MainSpends(cfg: Config, c: Conn)
    requires Transferable(cfg) && CanMain(c)
    ensures Spends(cfg, c, MainStep(c))
  {
    OpsWorkFirst(c.main);
  }

  lemma RestSpends(cfg: Config, c: Conn)
    requires Transferable(cfg) && CanRest(c)
    ensures Spends(cfg, c, RestStep(c))
  {
    OpsWorkFirst(c.queue.rest);
  }

  lemma FetchSpends(cfg: Config, c: Conn, id: nat)
    requires Transferable(cfg) && CanFetch(c.queue, id)
    requires exists j | 0 <= j < |cfg.order| :: cfg.order[j].id == id
    requires c.queue.rest == [] || !c.queue.downloads[id].at.Finishing?
    ensures Spends(cfg, c, FetchStep(cfg, c, id))
  {
    hide Transferable;
    var d := c.queue.downloads[id];
    if d.at.Asking? {
      FetchWorkMoves(cfg, c.queue, id, d.(at := Listening(d.at.k)));
      FetchWorkMoves(cfg, c.queue, id, d.(at := Finishing));
    } else if d.at.Storing? {
      FetchWorkMoves(cfg, c.queue, id, d.(buf := d.buf + d.at.frag, at := Asking(d.at.k + 1)));
    } else {
      FetchWorkMoves(cfg, c.queue, id, d.(at := Gone));
      AnnounceWork();
    }
  }

  lemma AnnounceWork()
    ensures OpsWork(ANNOUNCE) == 5 && OpsWork([] + ANNOUNCE) == 5
  {
    assert ANNOUNCE[1..] == [Put(AllPacksDownloaded)] && ANNOUNCE[1..][1..] == [];
    assert [] + ANNOUNCE == ANNOUNCE;
  }

  /** Whatever the packet, handling it costs less than its budget. */
  lemma ReceiveSpends(cfg: Config, c: Conn, up: bool)
    requires Transferable(cfg) && CanReceive(c)
    ensures var c' := Receive(cfg, c, up);
      && OwnWork(cfg, c') < OwnWork(cfg, c) + 200
      && c'.written == c.written && c'.buffer == c.buffer && |c'.inbox| == |c.inbox| - 1
  {
    hide Transferable;
    var p := c.inbox[0];
    if !Defers(c.gate, p) {
      var h := if up then HandleUp(cfg, c.gate, c.queue, p) else HandleDown(cfg, c.gate, c.queue, p);
      if h.Does? {
        if up { UpHandlersAreShort(cfg, c.gate, c.queue, p); } else { DownHandlersAreShort(cfg, c.gate, c.queue, p); }
        OpsWorkBounded(h.ops);
      }
    }
  }

  /** A batch leaves, and gets cheaper by one for every packet. */
  lemma FlushSpends(cfg: Config, c: Conn, wire: seq<Batch>)
    ensures OwnWork(cfg, Emptied(c)) == OwnWork(cfg, c) - 3 * |c.buffer|
    ensures |Flat(Sent(c, wire))| == |Flat(wire)| + |c.buffer|
  {
    if c.buffer != [] {
      FlatSnoc(wire, Batch(c.gate.enc, c.buffer));
    }
  }

  lemma DecodeSpends(cfg: Config, c: Conn, wire: seq<Batch>)
    requires CanDecode(c, wire) && wire[0].packets != []
    ensures var c' := Decode(c, wire[0]);
      && OwnWork(cfg, c') + 2 * |Flat(wire[1..])| < OwnWork(cfg, c) + 2 * |Flat(wire)|
      && |c'.inbox| + |Flat(wire[1..])| <= |c.inbox| + |Flat(wire)|
      && c'.written == c.written && c'.buffer == c.buffer
  {
  }

  lemma ServerSpends(cfg: Config, s: State, a: Actor)
    requires Transferable(cfg) && Enabled(cfg, s, a)
    requires a.ServerFlush? || a.ServerReceive? || a.ServerStep? || a.ServerMain?
    ensures Work(cfg, Act(cfg, s, a)) < Work(cfg, s)
  {
    hide Transferable, UpScript, DownScript, OwnWork, Flat;
    match a
    case ServerFlush => FlushSpends(cfg, s.server, s.down);
    case ServerReceive => ReceiveSpends(cfg, s.server, true);
    case ServerStep =>
      StepSpends(cfg, s.server);
      FlushSpends(cfg, Step(s.server), s.down);
    case ServerMain =>
      MainSpends(cfg, s.server);
      FlushSpends(cfg, MainStep(s.server), s.down);
  }

  lemma ClientSpends(cfg: Config, s: State, a: Actor)
    requires Transferable(cfg) && Enabled(cfg, s, a)
    requires a.ClientFlush? || a.ClientReceive? || a.ClientStep? || a.ClientMain? || a.Rest?
    ensures Work(cfg, Act(cfg, s, a)) < Work(cfg, s)
  {
    hide Transferable, UpScript, DownScript, OwnWork, Flat;
    match a
    case ClientFlush => FlushSpends(cfg, s.client, s.up);
    case ClientReceive => ReceiveSpends(cfg, s.client, false);
    case ClientStep =>
      StepSpends(cfg, s.client);
      FlushSpends(cfg, Step(s.client), s.up);
    case ClientMain =>
      MainSpends(cfg, s.client);
      FlushSpends(cfg, MainStep(s.client), s.up);
    case Rest => RestSpends(cfg, s.client);
  }

  lemma WireSpends(cfg: Config, s: State, m: Marks, a: Actor)
    requires ValidConfig(cfg) && Inv(cfg, s, m) && Enabled(cfg, s, a) && (a.ServerDecode? || a.ClientDecode?)
    ensures Work(cfg, Act(cfg, s, a)) < Work(cfg, s)
  {
    hide Transferable, Ordered, Agreed, UpScript, DownScript, OwnWork, ServerOk, ClientOk, Path;
    if a.ServerDecode? {
      assert s.up[0].packets != [];
      DecodeSpends(cfg, s.server, s.up);
    } else {
      assert s.down[0].packets != [];
      DecodeSpends(cfg, s.client, s.down);
    }
  }

  lemma FetchesSpend(cfg: Config, s: State, m: Marks, id: nat)
    requires ValidConfig(cfg) && Inv(cfg, s, m) && Enabled(cfg, s, Fetch(id))
    ensures Work(cfg, Act(cfg, s, Fetch(id))) < Work(cfg, s)
  {
    hide UpScript, DownScript, OwnWork, Ordered, Path, Stream, ServerOk;
    var c, y, x := s.client, m.handledDown, m.writtenUp;
    FetchingTransfers(cfg, c, y, x, id);
    var j := WhichPack(cfg, c.queue.downloads, y.i, PartOf(y), |c.todo| == 2, id);
    if c.queue.amount == 0 {
      NoneLeft(cfg, c.queue, y.i, PartOf(y), |c.todo| == 2);
      assert false;
    }
    FetchSpends(cfg, c, id);
  }

  /** Every step of every actor leaves less work. */
  lemma StepsSpend(cfg: Config, s: State, m: Marks, a: Actor)
    requires ValidConfig(cfg) && Inv(cfg, s, m) && Enabled(cfg, s, a)
    ensures Work(cfg, Act(cfg, s, a)) < Work(cfg, s)
  {
    hide *;
    if a.ServerDecode? || a.ClientDecode? {
      WireSpends(cfg, s, m, a);
    } else if a.Fetch? {
      FetchesSpend(cfg, s, m, a.id);
    } else if a.ServerFlush? || a.ServerReceive? || a.ServerStep? || a.ServerMain? {
      ValidTransfers(cfg);
      ServerSpends(cfg, s, a);
    } else {
      ValidTransfers(cfg);
      ClientSpends(cfg, s, a);
    }
  }

  lemma ValidTransfers(cfg: Config)
    requires ValidConfig(cfg)
    ensures Transferable(cfg)
  {
  }

  lemma WorkIsNatural(cfg: Config, s: State, m: Marks)
    requires ValidConfig(cfg) && Inv(cfg, s, m)
    ensures Work(cfg, s) >= 0
  {
    hide Inv, Ordered, Agreed, Transferable, UpScript, DownScript, OwnWork, Flat, Counts, Complete;
    InvIsSafe(cfg, s, m);
  }

  /** How many of a schedule's actors could move when it was their turn. */
  function Moves(cfg: Config, schedule: seq<Actor>): nat
  {
    if schedule == [] then 0
    else
      var before := schedule[..|schedule| - 1];
      Moves(cfg, before) + if Enabled(cfg, Run(cfg, before), schedule[|schedule| - 1]) then 1 else 0
  }

  /** The work left, in the state of the invariant, and the step that turns the stack down. */
  lemma {:induction false} MovesSpend(cfg: Config, schedule: seq<Actor>) returns (s0: State, m: Marks)
    requires ValidConfig(cfg)
    ensures Inv(cfg, s0, m) && Follows(cfg, s0, Run(cfg, schedule))
    ensures Moves(cfg, schedule) + Work(cfg, s0) <=
            Work(cfg, Init(cfg)) + if Run(cfg, schedule).client.failed then 1 else 0
  {
    hide Work, Inv, ValidConfig, Enabled, Act, Follows, Init;
    if schedule == [] {
      InitOk(cfg);
      s0, m := Init(cfg), Marks(X0, Y0, Y0, X0);
      FollowsItself(cfg, s0);
    } else {
      var before, a := schedule[..|schedule| - 1], schedule[|schedule| - 1];
      s0, m := MovesSpend(cfg, before);
      if Enabled(cfg, Run(cfg, before), a) {
        s0, m := SpendsOn(cfg, s0, m, Run(cfg, before), a);
      }
    }
  }

  lemma FollowsItself(cfg: Config, s: State)
    ensures Follows(cfg, s, s)
  {
  }

  /** A step spends work, or turns the stack down. */
  lemma SpendsOn(cfg: Config, s0: State, m: Marks, s: State, a: Actor) returns (s0': State, m': Marks)
    requires ValidConfig(cfg) && Inv(cfg, s0, m) && Follows(cfg, s0, s) && Enabled(cfg, s, a)
    ensures Inv(cfg, s0', m') && Follows(cfg, s0', Act(cfg, s, a))
    ensures if s.client.failed == Act(cfg, s, a).client.failed then Work(cfg, s0') < Work(cfg, s0)
            else Work(cfg, s0') == Work(cfg, s0) && !s.client.failed
  {
    hide Work, Inv, ValidConfig, Enabled, Act, Follows;
    s0', m' := FollowsOn(cfg, s0, m, s, a);
    if s.client.failed == Act(cfg, s, a).client.failed { StepsSpend(cfg, s0, m, a); }
  }

  /** However it is scheduled, a login takes no more steps than this: no run goes on for ever. */
  lemma Termination(cfg: Config, schedule: seq<Actor>)
    requires ValidConfig(cfg)
    ensures Moves(cfg, schedule) <= 200 * (|UpScript(cfg)| + |DownScript(cfg)|) + 400
  {
    hide Work, Inv, Enabled, Act, Follows, Init, UpScript, DownScript, Moves;
    var s0, m := MovesSpend(cfg, schedule);
    WorkIsNatural(cfg, s0, m);
    InitialWork(cfg);
  }

  lemma InitialWork(cfg: Config)
    requires Transferable(cfg)
    ensures Work(cfg, Init(cfg)) < 200 * (|UpScript(cfg)| + |DownScript(cfg)|) + 400
  {
    hide Transferable, UpScript, DownScript;
    OpsWorkBounded(DIAL);
    OpsWorkBounded([Await] + Game(cfg));
    FetchWorkNone(cfg, |cfg.order|);
  }
}
