/**
 * Sessions in which a connection has no flusher, because its flush rate is negative: what is buffered leaves only when a
 * handler, Dial or StartGame flushes. Who needs a flusher is the dialer, and only if it fetches packs.
 */
module SessionFlushers {
  import opened Wire
  import opened Packs
  import opened PackOrders
  import opened Session
  import opened SessionScript
  import opened SessionScripts
  import opened SessionSettle
  import opened SessionSide
  import opened SessionServer
  import opened SessionClient
  import opened SessionTransfer
  import opened SessionInvariant
  import opened SessionRuns
  import opened SessionReach
  import opened SessionTheorems
  import opened SessionBound

  // ------------------------------------------------- flushes behind every write

  /** A flush comes before the list ends or waits. */
  predicate FlushAhead(ops: seq<Op>)
  {
    ops != [] && !ops[0].Await? && (ops[0].Flush? || FlushAhead(ops[1..]))
  }

  /** Every packet that the list writes has a flush behind it. */
  predicate Flushed(ops: seq<Op>)
  {
    ops == [] || ((ops[0].Put? ==> FlushAhead(ops[1..])) && Flushed(ops[1..]))
  }

  /** What is buffered leaves without a flusher. */
  predicate WillFlush(c: Conn)
  {
    Flushed(c.todo) && Flushed(c.main) && (c.buffer != [] ==> FlushAhead(c.todo) || FlushAhead(c.main))
  }

  /** A list that writes nothing behind its n-th operation, a flush. */
  lemma {:induction false} EndsFlushed(ops: seq<Op>, n: nat)
    requires n < |ops| && ops[n].Flush?
    requires forall j | 0 <= j < |ops| :: if j < n then !ops[j].Await? else !ops[j].Put?
    ensures Flushed(ops) && FlushAhead(ops)
    decreases |ops|
  {
    if n > 0 {
      EndsFlushed(ops[1..], n - 1);
    } else {
      NoWrites(ops);
    }
  }

  lemma {:induction false} NoWrites(ops: seq<Op>)
    requires forall j | 0 <= j < |ops| :: !ops[j].Put?
    ensures Flushed(ops)
  {
    if ops != [] {
      NoWrites(ops[1..]);
    }
  }

  lemma {:induction false} FlushedConcat(a: seq<Op>, b: seq<Op>)
    requires Flushed(a) && Flushed(b)
    ensures Flushed(a + b) && (FlushAhead(a) ==> FlushAhead(a + b))
  {
    if a == [] {
      assert a + b == b;
    } else {
      assert (a + b)[1..] == a[1..] + b;
      FlushedConcat(a[1..], b);
    }
  }

  /** Nothing but a flush, or a flush and a signal, stands behind the last write of a handler. */
  predicate Closed(ops: seq<Op>)
  {
    && (forall j | 0 <= j < |ops| :: !ops[j].Await?)
    && |ops| > 0
    && (ops[|ops| - 1].Flush? || (ops[|ops| - 1].Signal? && |ops| > 1 && ops[|ops| - 2].Flush?))
  }

  lemma ClosedIsFlushed(ops: seq<Op>)
    requires Closed(ops)
    ensures Flushed(ops)
  {
    EndsFlushed(ops, if ops[|ops| - 1].Flush? then |ops| - 1 else |ops| - 2);
  }

  lemma UpHandlersFlush(cfg: Config, g: Gate, q: Queue, p: Packet)
    requires HandleUp(cfg, g, q, p).Does?
    ensures Closed(HandleUp(cfg, g, q, p).ops)
  {
    hide ReadAt, Request, NextPack;
  }

  lemma DownHandlersFlush(cfg: Config, g: Gate, q: Queue, p: Packet)
    requires HandleDown(cfg, g, q, p).Does?
    ensures Closed(HandleDown(cfg, g, q, p).ops)
  {
    hide Sort, Accepts, Ids;
  }

  // -------------------------------------------------------------------- steps

  lemma ReceiveFlushes(cfg: Config, c: Conn, up: bool)
    requires WillFlush(c) && CanReceive(c)
    ensures WillFlush(Receive(cfg, c, up))
  {
    hide HandleUp, HandleDown;
    var p := c.inbox[0];
    var h := if up then HandleUp(cfg, c.gate, c.queue, p) else HandleDown(cfg, c.gate, c.queue, p);
    if !Defers(c.gate, p) && h.Does? {
      if up { UpHandlersFlush(cfg, c.gate, c.queue, p); } else { DownHandlersFlush(cfg, c.gate, c.queue, p); }
      ClosedIsFlushed(h.ops);
    }
  }

  lemma StepFlushes(c: Conn)
    requires WillFlush(c) && CanStep(c)
    ensures WillFlush(After(Step(c), c.todo[0]))
  {
  }

  lemma MainFlushes(c: Conn)
    requires WillFlush(c) && CanMain(c)
    ensures WillFlush(After(MainStep(c), c.main[0]))
  {
  }

  /** Any step but those of the download goroutines. */
  lemma ActFlushes(cfg: Config, s: State, a: Actor)
    requires Enabled(cfg, s, a) && WillFlush(s.server)
    ensures WillFlush(Act(cfg, s, a).server)
    ensures WillFlush(s.client) && !a.Fetch? && !a.Rest? ==> WillFlush(Act(cfg, s, a).client)
  {
    hide FlushAhead, Flushed, Receive, Step, MainStep, FetchStep, RestStep;
    match a
    case ServerReceive => ReceiveFlushes(cfg, s.server, true);
    case ServerStep => StepFlushes(s.server);
    case ServerMain => MainFlushes(s.server);
    case ClientReceive => if WillFlush(s.client) { ReceiveFlushes(cfg, s.client, false); }
    case ClientStep => if WillFlush(s.client) { StepFlushes(s.client); }
    case ClientMain => if WillFlush(s.client) { MainFlushes(s.client); }
    case _ =>
  }

  lemma DialFlushes()
    ensures Flushed(DIAL)
  {
    var a := [Expect({NetworkSettingsId, PlayStatusId}), Put(RequestNetworkSettings), Flush, Await];
    var b := [Expect({ServerToClientHandshakeId, PlayStatusId, ResourcePacksInfoId}), Put(Login), Flush, Await];
    EndsFlushed(a, 2);
    EndsFlushed(b, 2);
    FlushedConcat(a, b);
    assert DIAL == a + b;
  }

  lemma GameFlushes(cfg: Config)
    ensures Flushed([Await] + Game(cfg))
  {
    var ops := Game(cfg);
    EndsFlushed(ops, |ops| - 1);
    NoWrites([Await]);
    FlushedConcat([Await], ops);
  }

  // --------------------------------------------------------------------- runs

  lemma RunSnoc(cfg: Config, schedule: seq<Actor>, a: Actor)
    ensures var s := Run(cfg, schedule); Run(cfg, schedule + [a]) == if Enabled(cfg, s, a) then Act(cfg, s, a) else s
  {
    assert (schedule + [a])[..|schedule + [a]| - 1] == schedule;
  }

  /** The listener flushes whatever it writes. */
  lemma {:induction false} ServerWillFlush(cfg: Config, schedule: seq<Actor>)
    ensures WillFlush(Run(cfg, schedule).server)
  {
    if schedule == [] {
      GameFlushes(cfg);
    } else {
      hide Enabled, Act, WillFlush, Init;
      var before, a := schedule[..|schedule| - 1], schedule[|schedule| - 1];
      ServerWillFlush(cfg, before);
      if Enabled(cfg, Run(cfg, before), a) { ActFlushes(cfg, Run(cfg, before), a); }
    }
  }

  /** No goroutine of a download moves in the run. */
  predicate Unfetched(cfg: Config, schedule: seq<Actor>)
  {
    schedule == [] ||
      var before, a := schedule[..|schedule| - 1], schedule[|schedule| - 1];
      Unfetched(cfg, before) && (a.Fetch? || a.Rest? ==> !Enabled(cfg, Run(cfg, before), a))
  }

  /** As long as no download goroutine moves, the dialer flushes whatever it writes. */
  lemma {:induction false} ClientWillFlush(cfg: Config, schedule: seq<Actor>)
    requires Unfetched(cfg, schedule)
    ensures WillFlush(Run(cfg, schedule).client)
  {
    if schedule == [] {
      DialFlushes();
    } else {
      hide Enabled, Act, WillFlush, Init;
      var before, a := schedule[..|schedule| - 1], schedule[|schedule| - 1];
      ClientWillFlush(cfg, before);
      ServerWillFlush(cfg, before);
      if Enabled(cfg, Run(cfg, before), a) { ActFlushes(cfg, Run(cfg, before), a); }
    }
  }

  lemma QuietDoesNotFetch(cfg: Config, s: State, m: Marks)
    requires ValidConfig(cfg) && Inv(cfg, s, m) && !Transfers(m.handledDown)
    ensures !Enabled(cfg, s, Rest) && forall id: nat :: !Enabled(cfg, s, Fetch(id))
  {
    hide ServerOk, Stream, Path, SideOk, Ordered, Agreed, Complete;
  }

  lemma QuietWithoutPacks(cfg: Config, s: State, m: Marks)
    requires ValidConfig(cfg) && Inv(cfg, s, m) && cfg.order == []
    ensures !Transfers(m.handledDown)
  {
    hide ServerOk, Stream, Path, QuietOk, TransferOk, Ordered, Agreed;
  }

  /** Without packs to fetch no download goroutine ever moves. */
  lemma {:induction false} NothingToFetch(cfg: Config, schedule: seq<Actor>)
    requires ValidConfig(cfg) && Acceptable(cfg) && cfg.order == []
    ensures Unfetched(cfg, schedule)
  {
    if schedule != [] {
      hide ValidConfig, Inv, Enabled, Transfers, Run, Acceptable;
      var before, a := schedule[..|schedule| - 1], schedule[|schedule| - 1];
      NothingToFetch(cfg, before);
      var m := ReachesAccepting(cfg, before);
      QuietWithoutPacks(cfg, Run(cfg, before), m);
      QuietDoesNotFetch(cfg, Run(cfg, before), m);
      assert a.Fetch? ==> a == Fetch(a.id);
    }
  }

  // ------------------------------------------------------------- without flushers

  /** Which of the two connections have a flusher. */
  datatype Flushers = Flushers(server: bool, client: bool)

  predicate Has(f: Flushers, a: Actor)
  {
    (a.ServerFlush? ==> f.server) && (a.ClientFlush? ==> f.client)
  }

  /** A schedule of the actors there are. */
  predicate Of(f: Flushers, schedule: seq<Actor>)
  {
    forall i | 0 <= i < |schedule| :: Has(f, schedule[i])
  }

  /** None of the actors there are can move. */
  ghost predicate StoppedFor(cfg: Config, f: Flushers, s: State)
  {
    forall a: Actor | Has(f, a) :: !Enabled(cfg, s, a)
  }

  /** Nothing is buffered in a side that can do nothing. */
  lemma NothingBuffered(cfg: Config, c: Conn, pos: Pos, goal: Settled)
    requires Transferable(cfg) && SideOk(cfg, c, pos, goal) && !CanStep(c) && !CanMain(c) && WillFlush(c)
    ensures c.buffer == []
  {
    SideStops(cfg, c, pos, goal);
  }

  lemma ServerBuffersNothing(cfg: Config, s: State, m: Marks)
    requires ValidConfig(cfg) && Inv(cfg, s, m) && WillFlush(s.server)
    requires !Enabled(cfg, s, ServerStep) && !Enabled(cfg, s, ServerMain)
    ensures !Enabled(cfg, s, ServerFlush)
  {
    hide SideOk, ServerGoal, Stream, Path, Ordered, Agreed, ClientOk;
    NothingBuffered(cfg, s.server, m.writtenDown, ServerGoal(cfg, m.handledUp));
  }

  lemma ClientBuffersNothing(cfg: Config, s: State, m: Marks)
    requires ValidConfig(cfg) && Inv(cfg, s, m) && WillFlush(s.client) && !Transfers(m.handledDown)
    requires !Enabled(cfg, s, ClientStep) && !Enabled(cfg, s, ClientMain)
    ensures !Enabled(cfg, s, ClientFlush)
  {
    hide SideOk, ClientGoal, Stream, Path, Ordered, Agreed, ServerOk;
    NothingBuffered(cfg, s.client, m.writtenUp, ClientGoal(cfg, m.handledDown));
  }

  /** A flusher for the dialer, or no pack to fetch, is enough. */
  lemma Enough(cfg: Config, f: Flushers, schedule: seq<Actor>)
    requires ValidConfig(cfg) && Acceptable(cfg) && (f.client || cfg.order == []) && StoppedFor(cfg, f, Run(cfg, schedule))
    ensures Finished(cfg, Run(cfg, schedule))
  {
    hide ValidConfig, Inv, Enabled, Transfers, Run, Finished, WillFlush, Acceptable;
    var s := Run(cfg, schedule);
    var m := ReachesAccepting(cfg, schedule);
    ServerWillFlush(cfg, schedule);
    ServerBuffersNothing(cfg, s, m);
    if !f.client {
      NothingToFetch(cfg, schedule);
      ClientWillFlush(cfg, schedule);
      QuietWithoutPacks(cfg, s, m);
      ClientBuffersNothing(cfg, s, m);
    }
    assert forall a: Actor :: Has(f, a) || a == ServerFlush || a == ClientFlush;
    Completion(cfg, schedule);
  }

  // ------------------------------------------------------------------ a run that hangs

  /** A schedule goes on until none of the given actors can move. */
  lemma {:induction false} Exhausted(cfg: Config, may: Actor -> bool, schedule: seq<Actor>, s0: State, m: Marks)
    returns (all: seq<Actor>)
    requires ValidConfig(cfg) && forall i | 0 <= i < |schedule| :: may(schedule[i])
    requires Inv(cfg, s0, m) && Follows(cfg, s0, Run(cfg, schedule))
    ensures schedule <= all && forall i | 0 <= i < |all| :: may(all[i])
    ensures forall a: Actor | may(a) :: !Enabled(cfg, Run(cfg, all), a)
    decreases Work(cfg, s0), !Run(cfg, schedule).client.failed
  {
    hide *;
    WorkIsNatural(cfg, s0, m);
    if a: Actor :| may(a) && Enabled(cfg, Run(cfg, schedule), a) {
      var s0', m' := SpendsOn(cfg, s0, m, Run(cfg, schedule), a);
      RunSnoc(cfg, schedule, a);
      WorkIsNatural(cfg, s0', m');
      all := Exhausted(cfg, may, schedule + [a], s0', m');
    } else {
      all := schedule;
    }
  }

  lemma Stops(cfg: Config, may: Actor -> bool, schedule: seq<Actor>) returns (all: seq<Actor>)
    requires ValidConfig(cfg) && forall i | 0 <= i < |schedule| :: may(schedule[i])
    ensures schedule <= all && forall i | 0 <= i < |all| :: may(all[i])
    ensures forall a: Actor | may(a) :: !Enabled(cfg, Run(cfg, all), a)
  {
    hide *;
    var s0, m := Reaches(cfg, schedule);
    all := Exhausted(cfg, may, schedule, s0, m);
  }

  /** The goroutines of the downloads have not begun. */
  predicate Unstarted(q: Queue)
  {
    q.rest == [] && forall id | id in q.downloads :: q.downloads[id].at == Asking(0)
  }

  lemma UnstartedKept(cfg: Config, s: State, a: Actor)
    requires Enabled(cfg, s, a) && !a.Fetch? && Unstarted(s.client.queue)
    ensures !a.Rest? && Unstarted(Act(cfg, s, a).client.queue)
  {
    hide HandleUp, Sort, Accepts, Ids, Finalise;
  }

  lemma {:induction false} NobodyFetched(cfg: Config, schedule: seq<Actor>)
    requires forall i | 0 <= i < |schedule| :: !schedule[i].Fetch?
    ensures Unstarted(Run(cfg, schedule).client.queue) && Unfetched(cfg, schedule)
  {
    if schedule != [] {
      hide Enabled, Act, Unstarted, Init;
      var before, a := schedule[..|schedule| - 1], schedule[|schedule| - 1];
      NobodyFetched(cfg, before);
      if Enabled(cfg, Run(cfg, before), a) { UnstartedKept(cfg, Run(cfg, before), a); }
    }
  }

  /** Neither a flusher nor the goroutine of a download. */
  predicate Prompt(a: Actor) { !a.ServerFlush? && !a.ClientFlush? && !a.Fetch? }

  ghost predicate Waiting(cfg: Config, s: State)
  {
    forall a: Actor | Prompt(a) :: !Enabled(cfg, s, a)
  }

  /** In a transfer whose goroutines have not begun, one that waits has handled the first data info. */
  lemma WaitsAtFirst(cfg: Config, c: Conn, y: Pos, x: Pos)
    requires ValidConfig(cfg) && On(cfg, y) && Transfers(y) && ClientOk(cfg, c, y, x)
    requires Unstarted(c.queue) && !CanStep(c) && !CanMain(c) && WillFlush(c)
    ensures y == YData(0) && c.todo == [] && c.buffer == [] && c.queue.amount > 0
    ensures cfg.order[0].id in c.queue.downloads && forall id | id in c.queue.downloads :: id == cfg.order[0].id
    ensures Fetching(cfg, c.queue.downloads[cfg.order[0].id], 0, 0, false)
  {
    hide Ordered, Agreed, Holding, QuietOk, Path, ClientGate, RestOk, Eager, Pieces;
    var i, d := y.i, c.queue.downloads;
    assert d[cfg.order[i].id].at == Asking(0);
    if i > 0 {
      assert d[cfg.order[0].id].at == Asking(0);
      CountPositive(cfg, 0);
    }
    if c.queue.amount == 0 { NoneLeft(cfg, c.queue, i, PartOf(y), |c.todo| == 2); }
  }

  /** Its goroutine writes the first request into the buffer, and there it stays. */
  lemma RequestStays(cfg: Config, s: State, id: nat)
    requires Waiting(cfg, s) && s.server.buffer == [] && s.client.buffer == []
    requires s.client.todo == [] && Unstarted(s.client.queue)
    requires forall j | j in s.client.queue.downloads :: j == id
    requires id in s.client.queue.downloads
    requires var d := s.client.queue.downloads[id]; d.chunk > 0 && Chunks(d.size, d.chunk) > 0
    ensures Enabled(cfg, s, Fetch(id))
    ensures var s' := Act(cfg, s, Fetch(id));
      && StoppedFor(cfg, Flushers(true, false), s') && s'.client.queue.amount == s.client.queue.amount
      && s'.client.buffer == [ChunkRequest(id, 0)]
  {
    var s' := Act(cfg, s, Fetch(id));
    forall a: Actor | Has(Flushers(true, false), a) ensures !Enabled(cfg, s', a) {
      assert Prompt(a) ==> !Enabled(cfg, s, a);
    }
  }

  /** Where nobody but the goroutine of the first download can move, its request ends the run. */
  lemma HangsThere(cfg: Config, s: State, m: Marks)
    requires ValidConfig(cfg) && Inv(cfg, s, m) && Transfers(m.handledDown)
    requires Waiting(cfg, s) && Unstarted(s.client.queue) && WillFlush(s.client) && WillFlush(s.server)
    ensures cfg.order != [] && Enabled(cfg, s, Fetch(cfg.order[0].id))
    ensures var s' := Act(cfg, s, Fetch(cfg.order[0].id));
      && StoppedFor(cfg, Flushers(true, false), s') && s'.client.queue.amount > 0
      && s'.client.buffer == [ChunkRequest(cfg.order[0].id, 0)]
  {
    hide Stream, Path, Ordered, Agreed, ServerOk, TransferOk, QuietOk, WillFlush, Act;
    assert Prompt(ServerStep) && Prompt(ServerMain) && Prompt(ClientStep) && Prompt(ClientMain);
    ServerBuffersNothing(cfg, s, m);
    WaitsAtFirst(cfg, s.client, m.handledDown, m.writtenUp);
    CountPositive(cfg, 0);
    PiecesAreReads(cfg.order[0].content, cfg.chunk);
    RequestStays(cfg, s, cfg.order[0].id);
  }

  lemma StoppedInside(cfg: Config, s: State, m: Marks)
    requires ValidConfig(cfg) && Inv(cfg, s, m) && !Transfers(m.handledDown)
    requires Waiting(cfg, s) && WillFlush(s.client) && WillFlush(s.server)
    ensures Stopped(cfg, s)
  {
    hide Inv, ValidConfig, Transfers, Enabled, WillFlush;
    assert Prompt(ServerStep) && Prompt(ServerMain) && Prompt(ClientStep) && Prompt(ClientMain);
    ServerBuffersNothing(cfg, s, m);
    ClientBuffersNothing(cfg, s, m);
    QuietDoesNotFetch(cfg, s, m);
    forall a: Actor ensures !Enabled(cfg, s, a) {
      if a.Fetch? { assert a == Fetch(a.id); } else if !Prompt(a) { assert a == ServerFlush || a == ClientFlush; }
    }
  }

  lemma UnstartedIsUnfinished(cfg: Config, s: State)
    requires ValidConfig(cfg) && cfg.order != [] && Unstarted(s.client.queue)
    ensures !Finished(cfg, s)
  {
    hide Ordered, Agreed, UpScript, DownScript;
    assert Arrived(s.client.queue.downloads, cfg.order[0].id) ==> false;
  }

  /** With packs to fetch and no flusher on the dialer, there is a run that ends before the first chunk. */
  lemma Hang(cfg: Config) returns (schedule: seq<Actor>)
    requires ValidConfig(cfg) && Acceptable(cfg) && cfg.order != []
    ensures Of(Flushers(false, false), schedule) && StoppedFor(cfg, Flushers(true, false), Run(cfg, schedule))
    ensures !Finished(cfg, Run(cfg, schedule)) && Run(cfg, schedule).client.buffer == [ChunkRequest(cfg.order[0].id, 0)]
  {
    hide ValidConfig, Inv, Enabled, Act, Run, Transfers, WillFlush, Unstarted, Unfetched, UpScript, DownScript, Acceptable;
    var prompt := Stops(cfg, Prompt, []);
    var s := Run(cfg, prompt);
    var m := ReachesAccepting(cfg, prompt);
    NobodyFetched(cfg, prompt);
    ServerWillFlush(cfg, prompt);
    ClientWillFlush(cfg, prompt);
    if !Transfers(m.handledDown) {
      StoppedInside(cfg, s, m);
      Completion(cfg, prompt);
      UnstartedIsUnfinished(cfg, s);
    } else {
      HangsThere(cfg, s, m);
      RunSnoc(cfg, prompt, Fetch(cfg.order[0].id));
      schedule := prompt + [Fetch(cfg.order[0].id)];
    }
  }

  // ---------------------------------------------------------------- the condition

  lemma QuietUnspawned(cfg: Config, c: Conn, y: Pos, x: Pos)
    requires ValidConfig(cfg) && On(cfg, y) && !Up(y) && QuietOk(cfg, c, y, x) && Stage(y) < 6
    ensures c.gate.spawns == 0
  {
    hide Ordered, Agreed, Complete, QuietQueue, AllGone, ModeOf, Eager, Idle;
    SettleGrows(cfg, Core(c.gate, x), c.todo, c.main);
  }

  lemma TransferUnspawned(cfg: Config, c: Conn, y: Pos, x: Pos)
    requires ValidConfig(cfg) && On(cfg, y) && Transfers(y) && TransferOk(cfg, c, y, x)
    ensures c.gate.spawns == 0
  {
    hide Ordered, Agreed, Transferring, RestOk, TransferTodo, Eager, Idle, Rested, WellBuffered;
  }

  lemma ClientUnspawned(cfg: Config, c: Conn, y: Pos, x: Pos)
    requires ValidConfig(cfg) && ClientOk(cfg, c, y, x) && Stage(y) < 6
    ensures c.gate.spawns == 0
  {
    hide ValidConfig, QuietOk, TransferOk, On, Up, Transfers;
    if Transfers(y) { TransferUnspawned(cfg, c, y, x); } else { QuietUnspawned(cfg, c, y, x); }
  }

  /** A dialer that will not accept the stack never spawns. */
  lemma NeverSpawns(cfg: Config, schedule: seq<Actor>)
    requires ValidConfig(cfg) && !Acceptable(cfg)
    ensures Run(cfg, schedule).client.gate.spawns == 0
  {
    hide ClientOk, ServerOk, Stream, Path, Agreed, Ordered, Acceptable;
    var s0, m := Reaches(cfg, schedule);
    ClientUnspawned(cfg, s0.client, m.handledDown, m.writtenUp);
  }

  /** Every run of the actors there are that cannot go on has brought both sides to the spawn. */
  ghost predicate AlwaysFinishes(cfg: Config, f: Flushers)
    requires ValidConfig(cfg)
  {
    forall schedule: seq<Actor> | Of(f, schedule) && StoppedFor(cfg, f, Run(cfg, schedule)) ::
      Finished(cfg, Run(cfg, schedule))
  }

  /** Logins succeed exactly if the dialer accepts the stack, and has a flusher or no pack to fetch. */
  lemma FinishesIff(cfg: Config, f: Flushers)
    requires ValidConfig(cfg)
    ensures AlwaysFinishes(cfg, f) <==> Acceptable(cfg) && (f.client || cfg.order == [])
  {
    hide ValidConfig, Enabled, Run, Acceptable, Complete, UpScript, DownScript;
    if !Acceptable(cfg) {
      var schedule := Stops(cfg, a => Has(f, a), []);
      NeverSpawns(cfg, schedule);
      assert Of(f, schedule) && StoppedFor(cfg, f, Run(cfg, schedule));
    } else if f.client || cfg.order == [] {
      forall schedule: seq<Actor> | Of(f, schedule) && StoppedFor(cfg, f, Run(cfg, schedule))
        ensures Finished(cfg, Run(cfg, schedule))
      {
        Enough(cfg, f, schedule);
      }
    } else {
      var schedule := Hang(cfg);
      assert Of(f, schedule) && StoppedFor(cfg, f, Run(cfg, schedule));
    }
  }

  /** And then every run, wherever it has got to, goes on to its end. */
  lemma CanFinish(cfg: Config, f: Flushers, schedule: seq<Actor>) returns (all: seq<Actor>)
    requires ValidConfig(cfg) && AlwaysFinishes(cfg, f) && Of(f, schedule)
    ensures schedule <= all && Of(f, all) && Finished(cfg, Run(cfg, all))
  {
    hide ValidConfig, Enabled, Run, Finished;
    all := Stops(cfg, a => Has(f, a), schedule);
  }

  /**
   * Of packs without behaviours, to a dialer without a cache: logins succeed exactly if no UUID is listed in two versions,
   * and the dialer has a flusher or there are no packs.
   */
  lemma PlainFinishesIff(cfg: Config, f: Flushers)
    requires PackOrders.Plain(cfg.packs) && cfg.chunk > 0 && cfg.verdicts == []
    requires cfg.names == Sort(cfg.packs, []).wanted && OrderOf(cfg.packs, cfg.names, cfg.order)
    ensures ValidConfig(cfg)
    ensures AlwaysFinishes(cfg, f) <==> OneVersionEach(cfg.packs) && (f.client || cfg.packs == [])
  {
    PlainIsValid(cfg);
    hide ValidConfig, AlwaysFinishes;
    StackAcceptedIff(cfg.packs, cfg.order);
    WantsSome(cfg.packs);
    FinishesIff(cfg, f);
  }
}
