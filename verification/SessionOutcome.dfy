/**
 * What a login comes to, in terms of the announced packs and of the packets on the wire: which logins succeed, and which
 * packets are compressed and encrypted in every run.
 */
module SessionOutcome {
  import opened Wire
  import opened Packs
  import opened PackOrders
  import opened PackChoice
  import opened Session
  import opened SessionScript
  import opened SessionSettle
  import opened SessionSide
  import opened SessionServer
  import opened SessionClient
  import opened SessionTransfer
  import opened SessionInvariant
  import opened SessionRuns
  import opened SessionReach
  import opened SessionTheorems
  import opened SessionFlushers

  // ----------------------------------------------------------- which logins succeed

  lemma ValidIsOrder(cfg: Config)
    requires ValidConfig(cfg)
    ensures OrderOf(cfg.packs, Sort(cfg.packs, cfg.verdicts).wanted, cfg.order)
  {
    hide Request, Sort, Ids, IdsFrom, ReadPack;
  }

  lemma AcceptableIffCovered(cfg: Config)
    requires ValidConfig(cfg)
    ensures Acceptable(cfg) <==> forall i | 0 <= i < |cfg.packs| :: Covered(cfg.packs, cfg.verdicts, i)
  {
    hide ValidConfig, OrderOf, Sort, Accepts, Covered;
    ValidIsOrder(cfg);
    AcceptedIffCovered(cfg.packs, cfg.verdicts, cfg.order);
  }

  lemma FetchesIffAsked(cfg: Config)
    requires ValidConfig(cfg)
    ensures cfg.order == [] <==> forall i | 0 <= i < |cfg.packs| :: !PackChoice.Asked(cfg.packs, cfg.verdicts, i)
  {
    hide Sort, Request, PendingFrom, Ids, IdsFrom, ReadPack, PackChoice.Asked, Transferable, Chosen;
    var ws, gs, cs := SortMeaning(cfg.packs, cfg.verdicts);
    WantsIffAsked(cfg.packs, cfg.verdicts, |cfg.packs|, Sort(cfg.packs, cfg.verdicts), ws, gs, cs);
  }

  lemma WantsIffAsked(packs: seq<Pack>, verdicts: seq<Verdict>, n: nat, q: Sorting,
                      ws: seq<nat>, gs: seq<nat>, cs: seq<nat>)
    requires n == |packs| && Chosen(packs, verdicts, n, q, ws, gs, cs)
    ensures q.wanted != [] ==> exists i | 0 <= i < |packs| :: PackChoice.Asked(packs, verdicts, i)
    ensures forall i | 0 <= i < |packs| :: PackChoice.Asked(packs, verdicts, i) ==> q.wanted != []
  {
    hide PackChoice.Asked;
    if q.wanted != [] {
      assert ws[0] in ws && PackChoice.Asked(packs, verdicts, ws[0]);
    }
    forall i | 0 <= i < |packs| && PackChoice.Asked(packs, verdicts, i) ensures q.wanted != [] {
      assert i in ws;
    }
  }

  /**
   * Logins of a dialer with any callback and any cache succeed exactly if it has something of the name of every pack, and
   * has a flusher or asks for no pack.
   */
  lemma LoginsSucceedIff(cfg: Config, f: Flushers)
    requires ValidConfig(cfg)
    ensures AlwaysFinishes(cfg, f) <==>
            && (forall i | 0 <= i < |cfg.packs| :: Covered(cfg.packs, cfg.verdicts, i))
            && (f.client || forall i | 0 <= i < |cfg.packs| :: !PackChoice.Asked(cfg.packs, cfg.verdicts, i))
  {
    hide ValidConfig, AlwaysFinishes, Acceptable, Covered, PackChoice.Asked;
    AcceptableIffCovered(cfg);
    FetchesIffAsked(cfg);
    FinishesIff(cfg, f);
  }

  // --------------------------------------------------------------- modes on the wire

  /** Before the network settings nothing is compressed, and nothing is encrypted before the handshake of the listener. */
  predicate InMode(cfg: Config, b: Batch)
  {
    forall p | p in b.packets ::
      && (p.RequestNetworkSettings? || p.NetworkSettings? <==> b.mode == Plain)
      && (b.mode == Encrypted <==>
            cfg.encrypted && !p.RequestNetworkSettings? && !p.NetworkSettings? && !p.Login? && !p.ServerToClientHandshake?)
  }

  lemma LabelledInMode(cfg: Config, wire: seq<Batch>, i: nat)
    requires Labelled(cfg, wire) && i < |wire|
    ensures wire[i].packets != [] && InMode(cfg, wire[i])
  {
    forall p | p in wire[i].packets ensures ModeOf(cfg, p) == wire[i].mode {
      var j :| 0 <= j < |wire[i].packets| && wire[i].packets[j] == p;
    }
  }

  /** Every batch on its way, in every run, holds packets, and is encoded as its packets have to be. */
  lemma WireModes(cfg: Config, schedule: seq<Actor>)
    requires ValidConfig(cfg)
    ensures var s := Run(cfg, schedule);
      && (forall i | 0 <= i < |s.up| :: s.up[i].packets != [] && InMode(cfg, s.up[i]))
      && (forall i | 0 <= i < |s.down| :: s.down[i].packets != [] && InMode(cfg, s.down[i]))
  {
    hide ValidConfig, Run, Labelled, InMode, Path, Acceptable, ServerOk, ClientOk;
    var s0, m := Reaches(cfg, schedule);
    var s := Run(cfg, schedule);
    assert s.up == s0.up && s.down == s0.down;
    forall i | 0 <= i < |s.up| ensures s.up[i].packets != [] && InMode(cfg, s.up[i]) {
      LabelledInMode(cfg, s.up, i);
    }
    forall i | 0 <= i < |s.down| ensures s.down[i].packets != [] && InMode(cfg, s.down[i]) {
      LabelledInMode(cfg, s.down, i);
    }
  }

  /** Where a run ends with both sides spawned, both are in the mode that was configured, in either direction. */
  lemma EndModes(cfg: Config, schedule: seq<Actor>)
    requires ValidConfig(cfg) && Stopped(cfg, Run(cfg, schedule)) && Acceptable(cfg)
    ensures var s, mode := Run(cfg, schedule), if cfg.encrypted then Encrypted else Compressed;
      && s.server.gate.enc == mode && s.server.gate.dec == mode && s.server.gate.authenticated
      && s.client.gate.enc == mode && s.client.gate.dec == mode
  {
    hide ValidConfig, Inv, Run, Stopped, Finished, Acceptable;
    var m := ReachesAccepting(cfg, schedule);
    StopsFinished(cfg, Run(cfg, schedule), m);
  }
}
