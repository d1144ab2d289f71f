/**
 * Every state of every run satisfies the invariant, or follows from such a state by the dialer's having turned down a pack
 * stack in which it misses a pack.
 */
module SessionReach {
  import opened Wire
  import opened Packs
  import opened Session
  import opened SessionScript
  import opened SessionSettle
  import opened SessionSide
  import opened SessionServer
  import opened SessionClient
  import opened SessionTransfer
  import opened SessionInvariant
  import opened SessionClientSteps
  import opened SessionTransferSteps
  import opened SessionRuns

  // -------------------------------------------------------- before the pack stack

  /** The dialer is about to handle the stack: it waits for it, holds every pack, and nobody is logged in. */
  predicate AtStack(cfg: Config, c: Conn)
  {
    && c.inbox != [] && c.inbox[0] == ResourcePackStack(cfg.packs)
    && ResourcePackStackId in c.gate.expected && !c.gate.loggedIn && c.gate.spawns == 0
    && Complete(cfg, c.queue)
    && (Accepts(c.queue.ignored, c.queue.held, cfg.packs) <==> Acceptable(cfg))
  }

  lemma TransferAtStack(cfg: Config, c: Conn, y: Pos)
    requires ValidConfig(cfg) && On(cfg, y) && y.YChunk? && ClientOk(cfg, c, y, XAll) && c.todo == []
    requires y.k + 1 == Count(cfg, y.i) && y.i + 1 == |cfg.order|
    requires c.inbox != [] && c.inbox[0] == ResourcePackStack(cfg.packs)
    ensures AtStack(cfg, c)
  {
    AllAnnounced(cfg, c, y);
    NoneLeft(cfg, c.queue, y.i, PartOf(y), false);
    EveryoneGone(cfg, c.queue, y.i, PartOf(y));
    HoldingAccepts(cfg, c.queue);
  }

  lemma QuietAtStack(cfg: Config, c: Conn)
    requires ValidConfig(cfg) && cfg.order == [] && QuietQueue(cfg, c.queue, YInfo) && c.gate == ClientGate(cfg, YInfo)
    requires c.inbox != [] && c.inbox[0] == ResourcePackStack(cfg.packs)
    ensures AtStack(cfg, c)
  {
    assert c.queue.held + cfg.order == c.queue.held;
  }

  lemma ComesToStack(cfg: Config, s: State, m: Marks)
    requires ValidConfig(cfg) && Inv(cfg, s, m) && CanReceive(s.client) && s.client.inbox[0].ResourcePackStack?
    ensures AtStack(cfg, s.client) && m.writtenUp == XAll && Stage(m.handledDown) < 6
  {
    var c, y := s.client, m.handledDown;
    StreamHandled(cfg, y, c.inbox, s.down, s.server.buffer, m.writtenDown);
    var y' := Next(cfg, y).next;
    assert y'.YStack?;
    if Transfers(y) {
      TransferIsAsked(cfg, s, m, y');
      TransferAtStack(cfg, c, y);
    } else {
      ClientRests(cfg, s, m);
      QuietAtStack(cfg, c);
    }
  }

  // ------------------------------------------------------------------- afterwards

  /** The dialer's handler of the stack returned an error in the first state. */
  predicate TurnedDown(cfg: Config, s0: State, s: State)
  {
    && CanReceive(s0.client) && s0.client.inbox[0].ResourcePackStack? && !Acceptable(cfg)
    && s == s0.(client := s0.client.(inbox := s0.client.inbox[1..], failed := true))
  }

  lemma TurnsDown(cfg: Config, s: State, m: Marks)
    requires ValidConfig(cfg) && Inv(cfg, s, m) && Enabled(cfg, s, ClientReceive) && !Agreeable(cfg, s.client)
    ensures TurnedDown(cfg, s, Act(cfg, s, ClientReceive))
  {
    hide ValidConfig, Inv, Complete, Acceptable, Accepts;
    ComesToStack(cfg, s, m);
  }

  predicate Follows(cfg: Config, s0: State, s: State) { s == s0 || TurnedDown(cfg, s0, s) }

  /** Once the stack is turned down, whoever moves would have moved the same way before. */
  lemma MovesAlike(cfg: Config, s0: State, s: State, a: Actor)
    requires TurnedDown(cfg, s0, s) && Enabled(cfg, s, a)
    ensures !a.ClientReceive? && Enabled(cfg, s0, a) && TurnedDown(cfg, Act(cfg, s0, a), Act(cfg, s, a))
  {
    hide Receive, Acceptable, Shift, ReadPack;
  }

  /** The state of the invariant behind a step, if it is not the step that turns the stack down. */
  lemma FollowsOn(cfg: Config, s0: State, m: Marks, s: State, a: Actor) returns (s0': State, m': Marks)
    requires ValidConfig(cfg) && Inv(cfg, s0, m) && Follows(cfg, s0, s) && Enabled(cfg, s, a)
    ensures Inv(cfg, s0', m') && Follows(cfg, s0', Act(cfg, s, a))
    ensures if s.client.failed == Act(cfg, s, a).client.failed then Enabled(cfg, s0, a) && s0' == Act(cfg, s0, a)
            else s0' == s0 && !s.client.failed
  {
    hide ValidConfig, Inv, Act, Enabled, Acceptable;
    if s != s0 {
      MovesAlike(cfg, s0, s, a);
      m' := Keeps(cfg, s0, m, a);
      s0' := Act(cfg, s0, a);
    } else if a.ClientReceive? && !Agreeable(cfg, s.client) {
      TurnsDown(cfg, s, m);
      s0', m' := s0, m;
    } else {
      m' := Keeps(cfg, s0, m, a);
      s0' := Act(cfg, s0, a);
      Unfailed(cfg, s0, m);
      Unfailed(cfg, s0', m');
    }
  }

  lemma Unfailed(cfg: Config, s: State, m: Marks)
    requires ValidConfig(cfg) && Inv(cfg, s, m)
    ensures !s.client.failed
  {
  }

  /** Every schedule leads to a state of the invariant, or to one that follows from it. */
  lemma {:induction false} Reaches(cfg: Config, schedule: seq<Actor>) returns (s0: State, m: Marks)
    requires ValidConfig(cfg)
    ensures Inv(cfg, s0, m) && Follows(cfg, s0, Run(cfg, schedule))
  {
    if schedule == [] {
      InitOk(cfg);
      s0, m := Init(cfg), Marks(X0, Y0, Y0, X0);
    } else {
      hide ValidConfig, Inv, Act, Enabled, Follows;
      s0, m := Reaches(cfg, schedule[..|schedule| - 1]);
      var s, a := Run(cfg, schedule[..|schedule| - 1]), schedule[|schedule| - 1];
      if Enabled(cfg, s, a) {
        s0, m := FollowsOn(cfg, s0, m, s, a);
      }
    }
  }

  /** A dialer that accepts the stack is always in a state of the invariant. */
  lemma ReachesAccepting(cfg: Config, schedule: seq<Actor>) returns (m: Marks)
    requires ValidConfig(cfg) && Acceptable(cfg)
    ensures Inv(cfg, Run(cfg, schedule), m)
  {
    var s0;
    s0, m := Reaches(cfg, schedule);
  }
}
