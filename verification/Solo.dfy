/** One connection by itself, whatever its peer sends and in whatever order its goroutines run. */
module Solo {
  import opened Wire
  import opened Packs
  import opened Session

  /**
   * Who acts next. A packet that arrives is any packet at all; a read comes with the order in which Go will iterate over
   * the map of packs, should it come to that.
   */
  datatype Turn = Arrive(p: Packet) | Read(order: seq<Pack>) | Work | Main | Download(id: nat) | Announce

  function Take(cfg: Config, c: Conn, up: bool, t: Turn): Conn
  {
    match t
    case Arrive(p) => c.(inbox := c.inbox + [p])
    case Read(order) => if CanReceive(c) then Receive(cfg.(order := order), c, up) else c
    case Work => if CanStep(c) then Step(c) else c
    case Main => if CanMain(c) then MainStep(c) else c
    case Download(id) => if CanFetch(c.queue, id) then FetchStep(cfg, c, id) else c
    case Announce => if CanRest(c) then RestStep(c) else c
  }

  function Listener(cfg: Config, turns: seq<Turn>): Conn
  {
    if turns == [] then Init(cfg).server
    else Take(cfg, Listener(cfg, turns[..|turns| - 1]), true, turns[|turns| - 1])
  }

  function Dialer(cfg: Config, turns: seq<Turn>): Conn
  {
    if turns == [] then Init(cfg).client
    else Take(cfg, Dialer(cfg, turns[..|turns| - 1]), false, turns[|turns| - 1])
  }

  function Count(ops: seq<Op>, op: Op): nat
  {
    if ops == [] then 0 else Count(ops[1..], op) + if ops[0] == op then 1 else 0
  }
}

/** A listener's connection: authentication comes before the login, and the spawn after it. */
module SoloListener {
  import opened Wire
  import opened Packs
  import opened Session
  import opened Solo

  /** IDs that are expected from authenticated peers only. */
  const AFTER: set<Kind> :=
    {ResourcePackClientResponseId, ClientCacheStatusId, ChunkRequestId, RequestChunkRadiusId, SetLocalPlayerId}

  /** IDs of the login itself. */
  const BEFORE: set<Kind> := {RequestNetworkSettingsId, LoginId, ClientToServerHandshakeId}

  predicate Crypted(g: Gate) { g.enc == Encrypted && g.dec == Encrypted }

  predicate Proven(encrypted: bool, g: Gate, handled: seq<Packet>)
  {
    Login in handled && (encrypted ==> Crypted(g))
  }

  /** The next operation expects nothing of the login any more. */
  predicate LoginIsOver(ops: seq<Op>)
  {
    ops != [] && ops[0].Expect? && ops[0].ids !! BEFORE
  }

  /** When a reader may run its next operation, with these operations behind it. */
  predicate Allowed(encrypted: bool, g: Gate, q: Queue, handled: seq<Packet>, op: Op, rest: seq<Op>)
  {
    match op
    case Expect(ids) =>
      && (ids !! AFTER || g.authenticated) && (ids !! BEFORE || !g.authenticated)
      && (ClientToServerHandshakeId in ids ==> Login in handled && encrypted && Crypt in rest)
      && (ChunkRequestId in ids ==> q.current.Some?)
      && RequestChunkRadiusId !in ids
      && (SetLocalPlayerId in ids ==> g.loggedIn)
    case Authenticate => Proven(encrypted, g, handled) && LoginIsOver(rest)
    case LogIn => g.authenticated
    case Signal => g.loggedIn
    case Enc(_) => !g.authenticated && ClientToServerHandshakeId !in g.expected
    case Dec(_) => !g.authenticated && ClientToServerHandshakeId !in g.expected
    case Crypt => encrypted
    case Waiting(on) => !on
    case Spawn => g.loggedIn
    case Deliver(_, _) => false
    case _ => true
  }

  predicate Lawful(encrypted: bool, g: Gate, q: Queue, handled: seq<Packet>, ops: seq<Op>)
    decreases ops
  {
    ops == [] || (Allowed(encrypted, g, q, handled, ops[0], ops[1..]) && Lawful(encrypted, Shift(g, ops[0]), q, handled, ops[1..]))
  }

  /** Everything expected was expected for a reason. */
  predicate GateOk(encrypted: bool, g: Gate, q: Queue, handled: seq<Packet>, todo: seq<Op>)
  {
    && (g.authenticated ==> Proven(encrypted, g, handled) && (g.expected !! BEFORE || LoginIsOver(todo)))
    && (g.expected !! AFTER || g.authenticated)
    && (ClientToServerHandshakeId in g.expected ==> Login in handled && encrypted && (Crypted(g) || Crypt in todo))
    && (ChunkRequestId in g.expected ==> q.current.Some?)
    && (RequestChunkRadiusId in g.expected || SetLocalPlayerId in g.expected || g.waiting || g.spawns > 0 ==> g.loggedIn)
    && (g.loggedIn ==> g.authenticated)
  }

  /** The goroutine that serves the connection has not begun before the login. */
  predicate MainOk(cfg: Config, g: Gate, main: seq<Op>)
  {
    main == [Await] + Game(cfg) || (g.loggedIn && exists n | 0 <= n <= |Game(cfg)| :: main == Game(cfg)[n..])
  }

  /** The right to close the spawn channel: with StartGame, with the flag, with the handler that took it, or used. */
  function Rights(c: Conn): int
  {
    Count(c.main, Waiting(true)) + Count(c.todo, Spawn) + c.gate.spawns
    + if c.gate.waiting && Count(c.todo, Waiting(false)) == 0 then 1 else 0
  }

  /** A handler that closes the channel first takes the flag back, once. */
  predicate TakesFlag(ops: seq<Op>)
  {
    || (Count(ops, Spawn) == 0 && Count(ops, Waiting(false)) == 0)
    || (Count(ops, Spawn) == 1 && (Count(ops, Waiting(false)) == 1 ==> ops[0] == Waiting(false))
        && Count(ops, Waiting(false)) <= 1)
  }

  predicate Sound(cfg: Config, c: Conn)
  {
    && GateOk(cfg.encrypted, c.gate, c.queue, c.handled, c.todo)
    && Lawful(cfg.encrypted, c.gate, c.queue, c.handled, c.todo)
    && MainOk(cfg, c.gate, c.main)
    && Count(c.todo, Waiting(true)) == 0 && TakesFlag(c.todo)
    && Rights(c) <= 1
    && c.queue.downloads == map[] && c.queue.rest == []
  }

  // ------------------------------------------------------- the other goroutine

  /** The fields that allow operations. */
  predicate Agrees(g: Gate, g': Gate)
  {
    && g'.enc == g.enc && g'.dec == g.dec && g'.authenticated == g.authenticated && g'.loggedIn == g.loggedIn
    && (ClientToServerHandshakeId in g'.expected ==> ClientToServerHandshakeId in g.expected)
  }

  /** The operations of StartGame take no permission away from the reader. */
  lemma {:induction false} LawfulAgrees(cfg: Config, g: Gate, g': Gate, q: Queue, handled: seq<Packet>, ops: seq<Op>)
    requires Agrees(g, g') && Lawful(cfg.encrypted, g, q, handled, ops)
    ensures Lawful(cfg.encrypted, g', q, handled, ops)
    decreases ops
  {
    hide Allowed, Agrees, Shift;
    if ops != [] {
      AllowedAgrees(cfg, g, g', q, handled, ops[0], ops[1..]);
      LawfulAgrees(cfg, Shift(g, ops[0]), Shift(g', ops[0]), q, handled, ops[1..]);
    }
  }

  lemma AllowedAgrees(cfg: Config, g: Gate, g': Gate, q: Queue, handled: seq<Packet>, op: Op, rest: seq<Op>)
    requires Agrees(g, g') && Allowed(cfg.encrypted, g, q, handled, op, rest)
    ensures Allowed(cfg.encrypted, g', q, handled, op, rest) && Agrees(Shift(g, op), Shift(g', op))
  {
  }

  lemma GameOps(cfg: Config, n: nat)
    requires n < |Game(cfg)|
    ensures var op := Game(cfg)[n];
      || op == Waiting(true) || op == Expect({RequestChunkRadiusId, SetLocalPlayerId}) || op.Put? || op.Flush?
    ensures Game(cfg)[n] == Waiting(true) <==> n == 0
  {
  }

  lemma {:induction false} CountNone(ops: seq<Op>, op: Op)
    requires forall j | 0 <= j < |ops| :: ops[j] != op
    ensures Count(ops, op) == 0
  {
    if ops != [] {
      CountNone(ops[1..], op);
    }
  }

  lemma MainGate(cfg: Config, c: Conn, op: Op)
    requires Sound(cfg, c) && c.gate.loggedIn
    requires op == Waiting(true) || op == Expect({RequestChunkRadiusId, SetLocalPlayerId}) || op.Put? || op.Flush?
    ensures GateOk(cfg.encrypted, Shift(c.gate, op), c.queue, c.handled, c.todo) && Agrees(c.gate, Shift(c.gate, op))
  {
    hide Lawful, Rights, TakesFlag, MainOk;
  }

  lemma MainRights(c: Conn)
    requires CanMain(c) && Rights(c) <= 1 && (c.main[0] == Waiting(true) || !c.main[0].Waiting?) && !c.main[0].Spawn?
    ensures Rights(MainStep(c)) <= 1
  {
  }

  lemma MainSound(cfg: Config, c: Conn)
    requires Sound(cfg, c) && CanMain(c)
    ensures Sound(cfg, MainStep(c))
  {
    var n :| 0 <= n <= |Game(cfg)| && c.main == Game(cfg)[n..];
    GameOps(cfg, n);
    MainRights(c);
    MainGate(cfg, c, c.main[0]);
    hide GateOk, Lawful, Rights, TakesFlag, Game;
    assert c.main[1..] == Game(cfg)[n + 1..];
    LawfulAgrees(cfg, c.gate, Shift(c.gate, c.main[0]), c.queue, c.handled, c.todo);
  }

  // ------------------------------------------------------------------ the reader

  lemma {:induction false} CryptStays(ops: seq<Op>)
    requires ops != [] && Crypt in ops && ops[0] != Crypt
    ensures Crypt in ops[1..]
  {
    var j :| 0 <= j < |ops| && ops[j] == Crypt;
    assert ops[1..][j - 1] == Crypt;
  }

  lemma WorkGate(cfg: Config, c: Conn)
    requires Sound(cfg, c) && CanStep(c)
    ensures var op := c.todo[0]; !op.Deliver? && GateOk(cfg.encrypted, Shift(c.gate, op), c.queue, c.handled, c.todo[1..])
    ensures Lawful(cfg.encrypted, Shift(c.gate, c.todo[0]), c.queue, c.handled, c.todo[1..])
  {
    hide Has;
    if Crypt in c.todo && c.todo[0] != Crypt {
      CryptStays(c.todo);
    }
  }

  lemma WorkRights(c: Conn)
    requires CanStep(c) && !c.todo[0].Deliver? && !c.todo[0].Signal? && TakesFlag(c.todo) && Rights(c) <= 1
    requires Count(c.todo, Waiting(true)) == 0
    ensures var c' := Step(c); Rights(c') <= 1 && TakesFlag(c'.todo) && Count(c'.todo, Waiting(true)) == 0
  {
  }

  lemma SignalSound(cfg: Config, c: Conn)
    requires Sound(cfg, c) && CanStep(c) && c.todo[0].Signal?
    ensures Sound(cfg, Step(c))
  {
    hide Allowed, GateOk, Lawful, Rights, TakesFlag;
    WorkGate(cfg, c);
    SignalBegins(cfg, c);
    SignalRights(cfg, c);
    SignalLogged(cfg, c);
  }

  lemma SignalLogged(cfg: Config, c: Conn)
    requires Sound(cfg, c) && CanStep(c) && c.todo[0].Signal?
    ensures c.gate.loggedIn
  {
  }

  /** The only wait is for the connection to be accepted. */
  lemma SignalBegins(cfg: Config, c: Conn)
    requires MainOk(cfg, c.gate, c.main) && CanStep(c) && c.todo[0].Signal?
    ensures c.main == [Await] + Game(cfg) && Step(c).main == Game(cfg)[0..]
  {
    if c.main != [Await] + Game(cfg) {
      var n :| 0 <= n <= |Game(cfg)| && c.main == Game(cfg)[n..];
      GameOps(cfg, n);
      assert false;
    }
  }

  lemma SignalRights(cfg: Config, c: Conn)
    requires CanStep(c) && c.todo[0].Signal? && TakesFlag(c.todo) && Rights(c) <= 1 && Count(c.todo, Waiting(true)) == 0
    ensures Rights(Step(c)) <= 1 && TakesFlag(Step(c).todo) && Count(Step(c).todo, Waiting(true)) == 0
  {
  }

  lemma WorkSound(cfg: Config, c: Conn)
    requires Sound(cfg, c) && CanStep(c)
    ensures Sound(cfg, Step(c))
  {
    hide Allowed, GateOk, Lawful, Rights, TakesFlag, MainOk;
    if c.todo[0].Signal? {
      SignalSound(cfg, c);
    } else {
      WorkGate(cfg, c);
      WorkRights(c);
      MainStays(cfg, c.gate, c.todo[0], c.main);
    }
  }

  lemma MainStays(cfg: Config, g: Gate, op: Op, main: seq<Op>)
    requires MainOk(cfg, g, main)
    ensures MainOk(cfg, Shift(g, op), main)
  {
  }

  // ------------------------------------------------------------------- handlers

  /** Operations of a handler that may run from here on. */
  predicate Permitted(cfg: Config, g: Gate, q: Queue, handled: seq<Packet>, h: Handling)
  {
    h.Does? ==>
      && Lawful(cfg.encrypted, g, h.q, handled, h.ops)
      && (ChunkRequestId in g.expected ==> h.q.current.Some?)
      && h.q.downloads == q.downloads && h.q.rest == q.rest
      && Count(h.ops, Waiting(true)) == 0 && TakesFlag(h.ops)
      && Count(h.ops, Spawn) <= (if g.waiting then 1 else 0)
      && (g.waiting && Count(h.ops, Spawn) == 1 ==> Count(h.ops, Waiting(false)) == 1)
  }

  lemma Unfold(cfg: Config, g: Gate, q: Queue, handled: seq<Packet>, op: Op, ops: seq<Op>)
    requires Allowed(cfg.encrypted, g, q, handled, op, ops) && Lawful(cfg.encrypted, Shift(g, op), q, handled, ops)
    ensures Lawful(cfg.encrypted, g, q, handled, [op] + ops)
  {
    assert ([op] + ops)[1..] == ops;
  }

  lemma CountCons(x: Op, op: Op, ops: seq<Op>)
    ensures Count([op] + ops, x) == Count(ops, x) + if op == x then 1 else 0
  {
    assert ([op] + ops)[1..] == ops;
  }

  /** Plain writes and flushes are always permitted. */
  predicate WriteOrFlush(op: Op) { op.Put? || op.Flush? }

  lemma {:induction false} PlainLawful(cfg: Config, g: Gate, q: Queue, handled: seq<Packet>, ops: seq<Op>)
    requires forall j | 0 <= j < |ops| :: WriteOrFlush(ops[j])
    ensures Lawful(cfg.encrypted, g, q, handled, ops)
    ensures Count(ops, Waiting(true)) == 0 && Count(ops, Waiting(false)) == 0 && Count(ops, Spawn) == 0
    decreases ops
  {
    if ops != [] {
      PlainLawful(cfg, g, q, handled, ops[1..]);
    }
  }

  /** Operations that have nothing to do with the spawn. */
  lemma NoFlag(ops: seq<Op>)
    requires forall j | 0 <= j < |ops| :: !ops[j].Waiting? && !ops[j].Spawn?
    ensures Count(ops, Waiting(true)) == 0 && Count(ops, Waiting(false)) == 0 && Count(ops, Spawn) == 0
  {
    CountNone(ops, Waiting(true));
    CountNone(ops, Waiting(false));
    CountNone(ops, Spawn);
  }

  lemma LoginPermitted(cfg: Config, g: Gate, q: Queue, handled: seq<Packet>)
    requires Proven(cfg.encrypted, g, handled) && ChunkRequestId !in g.expected && !g.waiting
    ensures Permitted(cfg, g, q, handled, Does(q, LoginDone(cfg)))
  {
    var ids := {ResourcePackClientResponseId, ClientCacheStatusId};
    var writes := [Put(LoginSuccess), Put(ResourcePacksInfo(cfg.packs)), Flush];
    var a := Shift(g, Authenticate);
    assert LoginDone(cfg) == [Authenticate] + ([Expect(ids)] + writes);
    PlainLawful(cfg, Shift(a, Expect(ids)), q, handled, writes);
    Unfold(cfg, a, q, handled, Expect(ids), writes);
    Unfold(cfg, g, q, handled, Authenticate, [Expect(ids)] + writes);
    NoFlag(LoginDone(cfg));
  }

  lemma {:induction false} PlainFirst(cfg: Config, g: Gate, q: Queue, handled: seq<Packet>, a: seq<Op>, b: seq<Op>)
    requires Lawful(cfg.encrypted, g, q, handled, b) && forall j | 0 <= j < |a| :: WriteOrFlush(a[j])
    ensures Lawful(cfg.encrypted, g, q, handled, a + b)
    decreases a
  {
    if a == [] {
      assert a + b == b;
    } else {
      PlainFirst(cfg, g, q, handled, a[1..], b);
      assert a + b == [a[0]] + (a[1..] + b);
      Unfold(cfg, g, q, handled, a[0], a[1..] + b);
    }
  }

  lemma NoFlagAround(a: seq<Op>, op: Op, b: seq<Op>)
    requires op.Expect?
    requires forall j | 0 <= j < |a| :: WriteOrFlush(a[j])
    requires forall j | 0 <= j < |b| :: WriteOrFlush(b[j])
    ensures a + [op] + b == a + ([op] + b)
    ensures var ops := a + [op] + b;
      Count(ops, Waiting(true)) == 0 && Count(ops, Waiting(false)) == 0 && Count(ops, Spawn) == 0
  {
    hide Count;
    NoFlag(a + [op] + b);
  }

  /** A handler that writes, expects, and is done. */
  lemma ExpectPermitted(cfg: Config, g: Gate, q: Queue, handled: seq<Packet>, a: seq<Op>, ids: set<Kind>, b: seq<Op>)
    requires Allowed(cfg.encrypted, g, q, handled, Expect(ids), b)
    requires forall j | 0 <= j < |a| :: WriteOrFlush(a[j])
    requires forall j | 0 <= j < |b| :: WriteOrFlush(b[j])
    ensures Lawful(cfg.encrypted, g, q, handled, a + [Expect(ids)] + b)
    ensures var ops := a + [Expect(ids)] + b;
      Count(ops, Waiting(true)) == 0 && Count(ops, Waiting(false)) == 0 && Count(ops, Spawn) == 0
  {
    hide *;
    NoFlagAround(a, Expect(ids), b);
    PlainLawful(cfg, Shift(g, Expect(ids)), q, handled, b);
    Unfold(cfg, g, q, handled, Expect(ids), b);
    PlainFirst(cfg, g, q, handled, a, [Expect(ids)] + b);
  }

  const SETTLE: seq<Op> := [Enc(Compressed)] + ([Dec(Compressed)] + [Flush])
  const SETTINGS: seq<Op> := [Expect({LoginId})] + ([Put(NetworkSettings)] + ([Flush] + SETTLE))

  lemma SettleLawful(cfg: Config, g: Gate, q: Queue, handled: seq<Packet>)
    requires !g.authenticated && !g.waiting && g.expected == {LoginId}
    ensures Lawful(cfg.encrypted, g, q, handled, SETTLE)
  {
    hide Lawful;
    var a := Shift(g, Enc(Compressed));
    PlainLawful(cfg, Shift(a, Dec(Compressed)), q, handled, [Flush]);
    Unfold(cfg, a, q, handled, Dec(Compressed), [Flush]);
    Unfold(cfg, g, q, handled, Enc(Compressed), [Dec(Compressed)] + [Flush]);
  }

  lemma SettingsLawful(cfg: Config, g: Gate, q: Queue, handled: seq<Packet>)
    requires !g.authenticated && !g.waiting && ChunkRequestId !in g.expected
    ensures Lawful(cfg.encrypted, g, q, handled, SETTINGS)
  {
    hide Lawful;
    var a := Shift(g, Expect({LoginId}));
    SettleLawful(cfg, a, q, handled);
    Unfold(cfg, a, q, handled, Flush, SETTLE);
    Unfold(cfg, a, q, handled, Put(NetworkSettings), [Flush] + SETTLE);
    Unfold(cfg, g, q, handled, Expect({LoginId}), [Put(NetworkSettings)] + ([Flush] + SETTLE));
  }

  lemma SettingsPermitted(cfg: Config, g: Gate, q: Queue, handled: seq<Packet>)
    requires !g.authenticated && !g.waiting && ChunkRequestId !in g.expected
    ensures Permitted(cfg, g, q, handled, HandleUp(cfg, g, q, RequestNetworkSettings))
  {
    hide Lawful, Count;
    assert HandleUp(cfg, g, q, RequestNetworkSettings) == Does(q, SETTINGS);
    SettingsLawful(cfg, g, q, handled);
    NoFlag(SETTINGS);
  }

  const SECURE: seq<Op> :=
    [Expect({ClientToServerHandshakeId})] + ([Put(ServerToClientHandshake), Flush] + ([Crypt] + [Flush]))

  lemma SecureLawful(cfg: Config, g: Gate, q: Queue, handled: seq<Packet>)
    requires cfg.encrypted && Login in handled && !g.authenticated && !g.waiting && ChunkRequestId !in g.expected
    ensures Lawful(cfg.encrypted, g, q, handled, SECURE)
  {
    hide Lawful;
    var ids := {ClientToServerHandshakeId};
    var a := Shift(g, Expect(ids));
    var writes, rest := [Put(ServerToClientHandshake), Flush], [Crypt] + [Flush];
    PlainLawful(cfg, Shift(a, Crypt), q, handled, [Flush]);
    Unfold(cfg, a, q, handled, Crypt, [Flush]);
    PlainFirst(cfg, a, q, handled, writes, rest);
    assert (writes + rest)[2] == Crypt;
    Unfold(cfg, g, q, handled, Expect(ids), writes + rest);
  }

  lemma EncryptedLoginPermitted(cfg: Config, g: Gate, q: Queue, handled: seq<Packet>)
    requires cfg.encrypted && Login in handled && !g.authenticated && !g.waiting && ChunkRequestId !in g.expected
    ensures Permitted(cfg, g, q, handled, HandleUp(cfg, g, q, Login))
  {
    hide Lawful, Count;
    assert HandleUp(cfg, g, q, Login) == Does(q, SECURE);
    SecureLawful(cfg, g, q, handled);
    NoFlag(SECURE);
  }

  lemma AdvancePermitted(cfg: Config, g: Gate, q: Queue, handled: seq<Packet>, before: seq<Op>)
    requires g.authenticated && forall j | 0 <= j < |before| :: WriteOrFlush(before[j])
    ensures Permitted(cfg, g, q, handled, Advance(cfg, q, before))
  {
    var h := Advance(cfg, q, before);
    if h.Does? {
      var info := h.ops[|before|];
      var a := before + [info];
      assert h.ops == a + [Expect({ChunkRequestId})] + [Flush];
      ExpectPermitted(cfg, g, h.q, handled, a, {ChunkRequestId}, [Flush]);
    }
  }

  lemma ChunkPermitted(cfg: Config, g: Gate, q: Queue, handled: seq<Packet>, id: nat, index: nat)
    requires g.authenticated && q.current.Some?
    ensures Permitted(cfg, g, q, handled, HandleChunkRequest(cfg, q, id, index))
  {
    var h := HandleChunkRequest(cfg, q, id, index);
    if h.Does? {
      var data := ReadAt(q.current.value.content, q.offset, cfg.chunk);
      var q' := q.(offset := q.offset + cfg.chunk);
      var ops := [Put(ChunkData(id, index, data)), Flush];
      if q.offset + |data| < |q.current.value.content| {
        PlainLawful(cfg, g, q', handled, ops + [Flush]);
      } else if q.pending != map[] {
        AdvancePermitted(cfg, g, q', handled, ops);
      } else {
        assert h.ops == ops + [Expect({ResourcePackClientResponseId})] + [Flush];
        ExpectPermitted(cfg, g, q', handled, ops, {ResourcePackClientResponseId}, [Flush]);
      }
    }
  }

  lemma CompletedPermitted(cfg: Config, g: Gate, q: Queue, handled: seq<Packet>)
    requires g.authenticated && (ChunkRequestId in g.expected ==> q.current.Some?)
    ensures Permitted(cfg, g, q, handled, HandleUp(cfg, g, q, Completed))
  {
    var a := Shift(g, LogIn);
    var tail := if g.loggedIn then [] else [Signal];
    var ops := [LogIn, Flush] + tail;
    assert !g.loggedIn ==> [Signal][1..] == [];
    assert Lawful(cfg.encrypted, a, q, handled, tail);
    Unfold(cfg, a, q, handled, Flush, tail);
    Unfold(cfg, g, q, handled, LogIn, [Flush] + tail);
    assert ops == [LogIn] + ([Flush] + tail);
    NoFlag(ops);
  }

  /** Only writes and flushes. */
  lemma PlainPermitted(cfg: Config, g: Gate, q: Queue, handled: seq<Packet>, ops: seq<Op>)
    requires ChunkRequestId in g.expected ==> q.current.Some?
    requires forall j | 0 <= j < |ops| :: WriteOrFlush(ops[j])
    ensures Permitted(cfg, g, q, handled, Does(q, ops))
  {
    hide Lawful, Count;
    PlainLawful(cfg, g, q, handled, ops);
  }

  const SPAWNING: seq<Op> := [Waiting(false)] + ([Spawn] + [Flush])

  lemma SpawnLawful(cfg: Config, g: Gate, q: Queue, handled: seq<Packet>)
    requires g.loggedIn
    ensures Lawful(cfg.encrypted, g, q, handled, SPAWNING)
  {
    hide Lawful;
    var a := Shift(g, Waiting(false));
    PlainLawful(cfg, Shift(a, Spawn), q, handled, [Flush]);
    Unfold(cfg, a, q, handled, Spawn, [Flush]);
    Unfold(cfg, g, q, handled, Waiting(false), [Spawn] + [Flush]);
  }

  lemma SpawnCounts()
    ensures Count(SPAWNING, Waiting(true)) == 0 && Count(SPAWNING, Waiting(false)) == 1 && Count(SPAWNING, Spawn) == 1
  {
    NoFlag([Flush]);
    hide Count;
    forall x ensures Count(SPAWNING, x) == Count([Flush], x) + (if x == Waiting(false) || x == Spawn then 1 else 0) {
      CountCons(x, Spawn, [Flush]);
      CountCons(x, Waiting(false), [Spawn] + [Flush]);
    }
  }

  lemma SpawnPermitted(cfg: Config, g: Gate, q: Queue, handled: seq<Packet>)
    requires g.loggedIn && g.waiting && (ChunkRequestId in g.expected ==> q.current.Some?)
    ensures Permitted(cfg, g, q, handled, Does(q, SPAWNING))
  {
    hide Lawful, Count;
    SpawnLawful(cfg, g, q, handled);
    SpawnCounts();
  }

  lemma InitialisedPermitted(cfg: Config, g: Gate, q: Queue, handled: seq<Packet>)
    requires g.loggedIn && (ChunkRequestId in g.expected ==> q.current.Some?)
    ensures Permitted(cfg, g, q, handled, HandleUp(cfg, g, q, SetLocalPlayerAsInitialised))
  {
    hide Permitted;
    if g.waiting {
      assert [Waiting(false), Spawn] + [Flush] == SPAWNING;
      SpawnPermitted(cfg, g, q, handled);
    } else {
      assert [] + [Flush] == [Flush];
      PlainPermitted(cfg, g, q, handled, [Flush]);
    }
  }

  lemma SendPermitted(cfg: Config, g: Gate, q: Queue, handled: seq<Packet>, names: seq<Name>)
    requires g.authenticated && (ChunkRequestId in g.expected ==> q.current.Some?)
    ensures Permitted(cfg, g, q, handled, HandleSendPacks(cfg, q, names))
  {
    hide Lawful, Count, Advance;
    if names == [] {
      PlainPermitted(cfg, g, q, handled, [Flush]);
    } else if Request(cfg.packs, names).Some? {
      AdvancePermitted(cfg, g, q.(pending := Request(cfg.packs, names).value), handled, []);
    }
  }

  lemma RadiusPermitted(cfg: Config, g: Gate, q: Queue, handled: seq<Packet>)
    requires g.loggedIn && g.authenticated && (ChunkRequestId in g.expected ==> q.current.Some?)
    ensures Permitted(cfg, g, q, handled, HandleUp(cfg, g, q, RequestChunkRadius))
  {
    hide Lawful, Count;
    var writes := [Put(ChunkRadiusUpdated), Put(PlayerSpawn), Put(CreativeContent), Flush];
    assert [Expect({SetLocalPlayerId}), Put(ChunkRadiusUpdated), Put(PlayerSpawn), Put(CreativeContent), Flush]
      == [] + [Expect({SetLocalPlayerId})] + writes;
    ExpectPermitted(cfg, g, q, handled, [], {SetLocalPlayerId}, writes);
  }

  // ------------------------------------------------------------- any packet at all

  /** Whatever packet the listener's gate lets through, its handler keeps to the rules. */
  lemma Handles(cfg: Config, g: Gate, q: Queue, handled: seq<Packet>, p: Packet)
    requires GateOk(cfg.encrypted, g, q, handled, []) && !Defers(g, p) && p in handled
    ensures Permitted(cfg, g, q, handled, HandleUp(cfg, g, q, p))
  {
    hide Lawful, Count, HandleSendPacks, HandleChunkRequest, TakesFlag, Crypted;
    match p
    case RequestNetworkSettings => SettingsPermitted(cfg, g, q, handled);
    case Login => if cfg.encrypted { EncryptedLoginPermitted(cfg, g, q, handled); } else { LoginPermitted(cfg, g, q, handled); }
    case ClientToServerHandshake => LoginPermitted(cfg, g, q, handled);
    case SendPacks(names) => SendPermitted(cfg, g, q, handled, names);
    case AllPacksDownloaded => PlainPermitted(cfg, g, q, handled, [Put(ResourcePackStack(cfg.packs)), Flush]);
    case Completed => CompletedPermitted(cfg, g, q, handled);
    case ChunkRequest(id, index) => ChunkPermitted(cfg, g, q, handled, id, index);
    case RequestChunkRadius => RadiusPermitted(cfg, g, q, handled);
    case SetLocalPlayerAsInitialised => InitialisedPermitted(cfg, g, q, handled);
    case Malformed(_) =>
    case _ => PlainPermitted(cfg, g, q, handled, [Flush]);
  }

  /** One more packet handled changes nothing about the past. */
  lemma HandledGrows(cfg: Config, g: Gate, q: Queue, handled: seq<Packet>, p: Packet)
    requires GateOk(cfg.encrypted, g, q, handled, [])
    ensures GateOk(cfg.encrypted, g, q, handled + [p], [])
  {
  }

  lemma ReadSound(cfg: Config, c: Conn, order: seq<Pack>)
    requires Sound(cfg, c) && CanReceive(c)
    ensures Sound(cfg, Receive(cfg.(order := order), c, true))
  {
    var own, p := cfg.(order := order), c.inbox[0];
    if !Defers(c.gate, p) {
      HandledGrows(cfg, c.gate, c.queue, c.handled, p);
      Handles(own, c.gate, c.queue, c.handled + [p], p);
      ReadKeeps(cfg, c, HandleUp(own, c.gate, c.queue, p), p);
    }
  }

  lemma ReadKeeps(cfg: Config, c: Conn, h: Handling, p: Packet)
    requires Sound(cfg, c) && c.todo == [] && GateOk(cfg.encrypted, c.gate, c.queue, c.handled + [p], [])
    requires h.Does? ==>
      && Lawful(cfg.encrypted, c.gate, h.q, c.handled + [p], h.ops)
      && (ChunkRequestId in c.gate.expected ==> h.q.current.Some?)
      && h.q.downloads == c.queue.downloads && h.q.rest == c.queue.rest
      && Count(h.ops, Waiting(true)) == 0 && TakesFlag(h.ops)
      && Count(h.ops, Spawn) <= (if c.gate.waiting then 1 else 0)
      && (c.gate.waiting && Count(h.ops, Spawn) == 1 ==> Count(h.ops, Waiting(false)) == 1)
    ensures h.Does? ==>
      Sound(cfg, c.(inbox := c.inbox[Min(1, |c.inbox|)..], queue := h.q, todo := h.ops, handled := c.handled + [p]))
  {
    hide Lawful, MainOk;
  }

  lemma {:induction false} ListenerIsSound(cfg: Config, turns: seq<Turn>)
    ensures Sound(cfg, Listener(cfg, turns))
  {
    if turns == [] {
      NoFlag([]);
      GameRights(cfg);
    } else {
      ListenerIsSound(cfg, turns[..|turns| - 1]);
      var c, t := Listener(cfg, turns[..|turns| - 1]), turns[|turns| - 1];
      hide Lawful, GateOk, MainOk, Rights, TakesFlag;
      if t.Read? && CanReceive(c) {
        ReadSound(cfg, c, t.order);
      } else if t.Work? && CanStep(c) {
        WorkSound(cfg, c);
      } else if t.Main? && CanMain(c) {
        MainSound(cfg, c);
      } else if t.Arrive? {
        ArriveSound(cfg, c, t.p);
      }
    }
  }

  lemma ArriveSound(cfg: Config, c: Conn, p: Packet)
    requires Sound(cfg, c)
    ensures Sound(cfg, c.(inbox := c.inbox + [p]))
  {
  }

  /** StartGame sets the flag once. */
  lemma GameRights(cfg: Config)
    ensures Count([Await] + Game(cfg), Waiting(true)) == 1
  {
    var tail := Game(cfg)[1..];
    assert forall j | 0 <= j < |tail| :: tail[j] != Waiting(true);
    CountNone(tail, Waiting(true));
    assert Game(cfg) == [Waiting(true)] + tail;
    CountCons(Waiting(true), Waiting(true), tail);
    CountCons(Waiting(true), Await, Game(cfg));
  }

  /**
   * A listener's connection, whatever the peer sends: a logged in one is authenticated, which takes an accepted login and,
   * unless it is disabled, active encryption; the spawn channel is closed at most once and only after the login; and a
   * chunk request is never handled without a current pack.
   */
  lemma ListenerSafety(cfg: Config, turns: seq<Turn>)
    ensures var c := Listener(cfg, turns);
      && (c.gate.loggedIn ==> c.gate.authenticated)
      && (c.gate.authenticated ==> Login in c.handled && (cfg.encrypted ==> c.gate.enc == Encrypted && c.gate.dec == Encrypted))
      && c.gate.spawns <= 1 && (c.gate.spawns > 0 ==> c.gate.loggedIn)
      && (forall id, index :: Defers(c.gate, ChunkRequest(id, index)) || c.queue.current.Some?)
  {
    ListenerIsSound(cfg, turns);
  }
}

/** A dialer's connection: the packets that lead to the spawn are handled in their order. */
module SoloDialer {
  import opened Wire
  import opened Packs
  import opened Session
  import opened Solo

  /** The packets that lead to the spawn. */
  predicate Leads(p: Packet, k: nat)
  {
    match k
    case 0 => p.ResourcePacksInfo?
    case 1 => p.ResourcePackStack?
    case 2 => p == StartGame
    case 3 => p == ItemRegistry
    case 4 => p == ChunkRadiusUpdated
    case _ => false
  }

  /** How many of them were handled in their order. */
  function Progress(handled: seq<Packet>): (n: nat)
    ensures n <= 5
  {
    if handled == [] then 0
    else
      var n := Progress(handled[..|handled| - 1]);
      if Leads(handled[|handled| - 1], n) then n + 1 else n
  }

  /** How many must have been handled for an ID to be expected. */
  function Needs(k: Kind): nat
  {
    match k
    case DataInfoId => 1
    case ChunkDataId => 1
    case ResourcePackStackId => 1
    case DimensionDataId => 2
    case StartGameId => 2
    case ItemRegistryId => 3
    case ChunkRadiusUpdatedId => 4
    case _ => 0
  }

  predicate Earned(n: nat, ids: set<Kind>)
  {
    forall k | k in ids :: Needs(k) <= n
  }

  predicate Allowed(n: nat, g: Gate, op: Op, rest: seq<Op>)
  {
    match op
    case Expect(ids) => Earned(n, ids)
    case Waiting(on) => on ==> g.spawns == 0
    case Received(on) => on ==> n == 5
    case Spawn => n == 5 && g.spawns == 0 && !g.waiting && LogIn in rest && Waiting(true) !in rest
    case _ => true
  }

  predicate Lawful(n: nat, g: Gate, ops: seq<Op>)
    decreases ops
  {
    ops == [] || (Allowed(n, g, ops[0], ops[1..]) && Lawful(n, Shift(g, ops[0]), ops[1..]))
  }

  predicate GateOk(n: nat, g: Gate, todo: seq<Op>)
  {
    && Earned(n, g.expected)
    && (g.received ==> n == 5)
    && g.spawns <= 1
    && (g.spawns == 1 ==> n == 5 && !g.waiting && (g.loggedIn || LogIn in todo) && Waiting(true) !in todo)
  }

  /** Goroutines other than the reader expect, write and flush. */
  predicate Modest(n: nat, op: Op)
  {
    (op.Expect? && Earned(n, op.ids)) || op.Put? || op.Flush?
  }

  predicate Sound(c: Conn)
  {
    var n := Progress(c.handled);
    && GateOk(n, c.gate, c.todo) && Lawful(n, c.gate, c.todo)
    && (forall j | 0 <= j < |c.main| :: Modest(n, c.main[j]) || c.main[j].Await?)
    && (forall j | 0 <= j < |c.queue.rest| :: Modest(n, c.queue.rest[j]))
    && (c.queue.downloads != map[] ==> n >= 1)
  }

  // ------------------------------------------------------------------- progress

  lemma ProgressGrows(handled: seq<Packet>, p: Packet)
    ensures Progress(handled) <= Progress(handled + [p])
    ensures forall k: nat :: k <= Progress(handled) && Leads(p, k) ==> k + 1 <= Progress(handled + [p])
  {
    assert (handled + [p])[..|handled|] == handled;
  }

  /** Positions at which the packets were handled, one after the other. */
  predicate InOrder(handled: seq<Packet>, at: seq<nat>)
  {
    && (forall k | 0 <= k < |at| :: at[k] < |handled| && Leads(handled[at[k]], k))
    && (forall k | 0 <= k < |at| - 1 :: at[k] < at[k + 1])
  }

  lemma {:induction false} ProgressIsOrder(handled: seq<Packet>) returns (at: seq<nat>)
    ensures |at| == Progress(handled) && InOrder(handled, at)
  {
    if handled == [] {
      at := [];
    } else {
      var front := handled[..|handled| - 1];
      at := ProgressIsOrder(front);
      assert forall k | 0 <= k < |at| :: handled[at[k]] == front[at[k]];
      if Leads(handled[|handled| - 1], |at|) {
        at := at + [|handled| - 1];
      }
    }
  }

  lemma {:induction false} MoreAllowed(n: nat, n': nat, g: Gate, g': Gate, ops: seq<Op>)
    requires n <= n' <= 5 && Lawful(n, g, ops) && g'.spawns == g.spawns && g'.waiting == g.waiting
    ensures Lawful(n', g', ops)
    decreases ops
  {
    hide Allowed, Shift;
    if ops != [] {
      AllowedMore(n, n', g, g', ops[0], ops[1..]);
      MoreAllowed(n, n', Shift(g, ops[0]), Shift(g', ops[0]), ops[1..]);
    }
  }

  lemma AllowedMore(n: nat, n': nat, g: Gate, g': Gate, op: Op, rest: seq<Op>)
    requires n <= n' <= 5 && Allowed(n, g, op, rest) && g'.spawns == g.spawns && g'.waiting == g.waiting
    ensures Allowed(n', g', op, rest)
    ensures Shift(g', op).spawns == Shift(g, op).spawns && Shift(g', op).waiting == Shift(g, op).waiting
  {
  }

  // ---------------------------------------------------------------------- steps

  lemma {:induction false} Stays(ops: seq<Op>, op: Op)
    requires ops != [] && op in ops && ops[0] != op
    ensures op in ops[1..]
  {
    var j :| 0 <= j < |ops| && ops[j] == op;
    assert ops[1..][j - 1] == op;
  }

  lemma WorkGate(n: nat, g: Gate, todo: seq<Op>)
    requires GateOk(n, g, todo) && Lawful(n, g, todo) && todo != []
    ensures GateOk(n, Shift(g, todo[0]), todo[1..]) && Lawful(n, Shift(g, todo[0]), todo[1..])
  {
    hide GateOk, Allowed, Shift;
    WorkAllowed(n, g, todo);
  }

  lemma WorkAllowed(n: nat, g: Gate, todo: seq<Op>)
    requires GateOk(n, g, todo) && todo != [] && Allowed(n, g, todo[0], todo[1..])
    ensures GateOk(n, Shift(g, todo[0]), todo[1..])
  {
    hide Lawful;
    if LogIn in todo && todo[0] != LogIn { Stays(todo, LogIn); }
    if Waiting(true) in todo[1..] { assert Waiting(true) in todo; }
  }

  lemma WorkSound(c: Conn)
    requires Sound(c) && CanStep(c)
    ensures Sound(Step(c))
  {
    WorkGate(Progress(c.handled), c.gate, c.todo);
    if c.todo[0].Signal? {
      assert forall j | 0 <= j < |c.main[1..]| :: c.main[1..][j] == c.main[j + 1];
    }
  }

  /** An operation of another goroutine only touches what is expected. */
  lemma ModestGate(n: nat, g: Gate, op: Op, todo: seq<Op>)
    requires GateOk(n, g, todo) && Lawful(n, g, todo) && n <= 5 && Modest(n, op)
    ensures GateOk(n, Shift(g, op), todo) && Lawful(n, Shift(g, op), todo)
  {
    MoreAllowed(n, n, g, Shift(g, op), todo);
  }

  lemma MainSound(c: Conn)
    requires Sound(c) && CanMain(c)
    ensures Sound(MainStep(c))
  {
    ModestGate(Progress(c.handled), c.gate, c.main[0], c.todo);
    assert forall j | 0 <= j < |c.main[1..]| :: c.main[1..][j] == c.main[j + 1];
  }

  lemma AnnounceSound(c: Conn)
    requires Sound(c) && CanRest(c)
    ensures Sound(RestStep(c))
  {
    ModestGate(Progress(c.handled), c.gate, c.queue.rest[0], c.todo);
    assert forall j | 0 <= j < |c.queue.rest[1..]| :: c.queue.rest[1..][j] == c.queue.rest[j + 1];
  }

  lemma DownloadSound(cfg: Config, c: Conn, id: nat)
    requires Sound(c) && CanFetch(c.queue, id)
    ensures Sound(FetchStep(cfg, c, id))
  {
    assert c.queue.downloads != map[];
    assert Earned(1, {ResourcePackStackId, PlayStatusId});
  }

  // ------------------------------------------------------------- any packet at all

  lemma Unfold(n: nat, g: Gate, op: Op, ops: seq<Op>)
    requires Allowed(n, g, op, ops) && Lawful(n, Shift(g, op), ops)
    ensures Lawful(n, g, [op] + ops)
  {
    assert ([op] + ops)[1..] == ops;
  }

  /** Operations that need no more than what was handled. */
  lemma {:induction false} HarmlessLawful(n: nat, g: Gate, ops: seq<Op>)
    requires forall j | 0 <= j < |ops| :: !ops[j].Waiting? && !ops[j].Received? && !ops[j].Spawn?
    requires forall j | 0 <= j < |ops| :: ops[j].Expect? ==> Earned(n, ops[j].ids)
    ensures Lawful(n, g, ops)
    decreases ops
  {
    if ops != [] {
      HarmlessLawful(n, Shift(g, ops[0]), ops[1..]);
    }
  }

  lemma FinaliseLawful(n: nat, g: Gate, tail: seq<Op>)
    requires n == 5 && g.spawns == 0 && (tail == [Flush] || tail == [Flush] + [Signal])
    ensures Lawful(n, g, Finalise(true, true) + tail)
  {
    var a := Shift(g, Waiting(false));
    var b := Shift(a, Received(false));
    var c := Shift(b, Spawn);
    hide Lawful;
    var last := [LogIn] + ([Put(SetLocalPlayerAsInitialised)] + tail);
    HarmlessLawful(n, c, last);
    assert last[0] == LogIn && Waiting(true) !in last;
    Unfold(n, b, Spawn, last);
    Unfold(n, a, Received(false), [Spawn] + last);
    Unfold(n, g, Waiting(false), [Received(false)] + ([Spawn] + last));
    assert Finalise(true, true) + tail == [Waiting(false)] + ([Received(false)] + ([Spawn] + last));
  }

  /** tryFinaliseClientConn after either of its two packets. */
  lemma ConnectedLawful(n: nat, g: Gate, g': Gate, waiting: bool, received: bool)
    requires g'.spawns == 0 && (waiting && received ==> n == 5)
    ensures Lawful(n, g', Connected(g, Finalise(waiting, received)))
  {
    var done := Finalise(waiting, received);
    var tail := [Flush] + if done != [] && !g.loggedIn then [Signal] else [];
    assert Connected(g, done) == done + tail;
    if waiting && received {
      assert tail == [Flush] || tail == [Flush] + [Signal];
      FinaliseLawful(n, g', tail);
    } else {
      assert Connected(g, done) == [Flush];
      HarmlessLawful(n, g', [Flush]);
    }
  }

  lemma RadiusLawful(cfg: Config, g: Gate, q: Queue)
    requires g.spawns == 0
    ensures Lawful(5, g, HandleDown(cfg, g, q, ChunkRadiusUpdated).ops)
  {
    var ids := {PlayStatusId, ResourcePacksInfoId};
    var a := Shift(g, Expect(ids));
    var ops := Connected(g, Finalise(g.waiting, true));
    ConnectedLawful(5, g, Shift(a, Received(true)), g.waiting, true);
    Unfold(5, a, Received(true), ops);
    Unfold(5, g, Expect(ids), [Received(true)] + ops);
    assert [Expect(ids), Received(true)] + ops == [Expect(ids)] + ([Received(true)] + ops);
  }

  lemma SpawnLawful(cfg: Config, g: Gate, q: Queue, n: nat)
    requires g.spawns == 0 && (g.received ==> n == 5)
    ensures Lawful(n, g, HandleDown(cfg, g, q, PlayerSpawn).ops)
  {
    var ops := Connected(g, Finalise(true, g.received));
    ConnectedLawful(n, g, Shift(g, Waiting(true)), true, g.received);
    Unfold(n, g, Waiting(true), ops);
  }

  /** A connection that has spawned handles nothing any more. */
  lemma SpawnedDefers(n: nat, g: Gate, p: Packet)
    requires GateOk(n, g, []) && !Defers(g, p)
    ensures g.spawns == 0 && Needs(KindOf(p)) <= n && (g.received ==> n == 5)
  {
  }

  lemma QueueKept(cfg: Config, g: Gate, q: Queue, n: nat, p: Packet)
    requires Needs(KindOf(p)) <= n && (q.downloads != map[] ==> n >= 1)
    ensures var h := HandleDown(cfg, g, q, p); h.Does? ==> h.q.rest == q.rest && (h.q.downloads != map[] ==> n >= 1)
  {
  }

  /** Whatever packet the dialer's gate lets through, its handler keeps to the rules. */
  lemma Handles(cfg: Config, g: Gate, q: Queue, n: nat, n': nat, p: Packet)
    requires Needs(KindOf(p)) <= n <= n' <= 5 && g.spawns == 0 && (g.received ==> n == 5)
    requires forall k: nat :: k <= n && Leads(p, k) ==> k + 1 <= n'
    ensures var h := HandleDown(cfg, g, q, p); h.Does? ==> Lawful(n', g, h.ops)
  {
    var h := HandleDown(cfg, g, q, p);
    if p == ChunkRadiusUpdated {
      assert Leads(p, 4);
      RadiusLawful(cfg, g, q);
    } else if p == PlayerSpawn {
      SpawnLawful(cfg, g, q, n');
    } else if h.Does? {
      assert p.ResourcePacksInfo? ==> Leads(p, 0);
      assert p.ResourcePackStack? ==> Leads(p, 1);
      assert p == StartGame ==> Leads(p, 2);
      assert p == ItemRegistry ==> Leads(p, 3);
      HarmlessLawful(n', g, h.ops);
    }
  }

  lemma ModestMore(n: nat, n': nat, ops: seq<Op>)
    requires n <= n'
    ensures (forall j | 0 <= j < |ops| :: Modest(n, ops[j])) ==> forall j | 0 <= j < |ops| :: Modest(n', ops[j])
    ensures (forall j | 0 <= j < |ops| :: Modest(n, ops[j]) || ops[j].Await?) ==>
      forall j | 0 <= j < |ops| :: Modest(n', ops[j]) || ops[j].Await?
  {
  }

  /** The gate before a handler's operations: nothing was left to do, so its spawn had been followed by the login. */
  lemma GateMore(n: nat, n': nat, g: Gate, ops: seq<Op>)
    requires n <= n' <= 5 && GateOk(n, g, []) && g.spawns == 0
    ensures GateOk(n', g, ops)
  {
  }

  /** A handled packet: the handler's operations are to be done, and one more packet was handled. */
  lemma TookSound(c: Conn, q: Queue, ops: seq<Op>, p: Packet)
    requires Sound(c) && c.todo == [] && c.gate.spawns == 0
    requires var n' := Progress(c.handled + [p]);
      && Progress(c.handled) <= n' && Lawful(n', c.gate, ops)
      && q.rest == c.queue.rest && (q.downloads != map[] ==> n' >= 1)
    ensures Sound(c.(queue := q, todo := ops, handled := c.handled + [p]))
  {
    hide Progress, Lawful, Modest, GateOk;
    var n, n' := Progress(c.handled), Progress(c.handled + [p]);
    ModestMore(n, n', c.main);
    ModestMore(n, n', c.queue.rest);
    GateMore(n, n', c.gate, ops);
  }

  lemma ReadSound(cfg: Config, c: Conn)
    requires Sound(c) && CanReceive(c)
    ensures Sound(Receive(cfg, c, false))
  {
    hide Progress, Lawful, Modest, HandleDown;
    var n, p := Progress(c.handled), c.inbox[0];
    if !Defers(c.gate, p) {
      ProgressGrows(c.handled, p);
      SpawnedDefers(n, c.gate, p);
      QueueKept(cfg, c.gate, c.queue, n, p);
      var h := HandleDown(cfg, c.gate, c.queue, p);
      Handles(cfg, c.gate, c.queue, n, Progress(c.handled + [p]), p);
      if h.Does? {
        TookSound(c.(inbox := c.inbox[1..]), h.q, h.ops, p);
      }
    }
  }

  lemma {:induction false} DialerIsSound(cfg: Config, turns: seq<Turn>)
    ensures Sound(Dialer(cfg, turns))
  {
    if turns != [] {
      DialerIsSound(cfg, turns[..|turns| - 1]);
      var c, t := Dialer(cfg, turns[..|turns| - 1]), turns[|turns| - 1];
      if t.Read? && CanReceive(c) {
        ReadSound(cfg.(order := t.order), c);
      } else if t.Work? && CanStep(c) {
        WorkSound(c);
      } else if t.Main? && CanMain(c) {
        MainSound(c);
      } else if t.Download? && CanFetch(c.queue, t.id) {
        DownloadSound(cfg, c, t.id);
      } else if t.Announce? && CanRest(c) {
        AnnounceSound(c);
      }
    }
  }

  /**
   * A dialer's connection, whatever the peer sends: the spawn channel is closed at most once, and only after the packs
   * were announced, the stack, StartGame, the item registry and the chunk radius were handled, in this order; and neither
   * a data info nor a chunk is handled before there is a queue for it.
   */
  lemma DialerSafety(cfg: Config, turns: seq<Turn>) returns (at: seq<nat>)
    ensures var c := Dialer(cfg, turns);
      && c.gate.spawns <= 1
      && InOrder(c.handled, at) && (c.gate.spawns == 1 ==> |at| == 5)
      && (!Defers(c.gate, Malformed(DataInfoId)) || !Defers(c.gate, Malformed(ChunkDataId)) ==> |at| >= 1)
  {
    DialerIsSound(cfg, turns);
    at := ProgressIsOrder(Dialer(cfg, turns).handled);
  }
}
