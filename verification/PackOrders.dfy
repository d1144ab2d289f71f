/** Which listeners and dialers the session theorems are about: nearly all, and exactly when the stack is accepted. */
module PackOrders {
  import opened Wire
  import opened Packs
  import opened Session
  import opened SessionScript
  import opened SessionServer
  import opened SessionClient
  import opened SessionInvariant

  /** Any order of the packs that the listener finds for the request. */
  predicate OrderOf(packs: seq<Pack>, names: seq<Name>, order: seq<Pack>)
  {
    && Request(packs, names).Some? && |order| == |names|
    && (forall i, j | 0 <= i < j < |order| :: order[i].id != order[j].id)
    && (forall j | 0 <= j < |order| ::
         order[j].id in Request(packs, names).value && Request(packs, names).value[order[j].id] == order[j])
  }

  /** A dialer that downloads everything asks once for every UUID it is told. */
  lemma {:induction false} EverythingIsWanted(packs: seq<Pack>, n: nat)
    requires n <= |packs|
    ensures forall i | 0 <= i < n :: SortFirst(packs, [], n).Queued(packs[i].id)
    ensures SortFirst(packs, [], n).ignored == [] && SortFirst(packs, [], n).cached == []
  {
    if n > 0 {
      EverythingIsWanted(packs, n - 1);
      var q, p := SortFirst(packs, [], n - 1), packs[n - 1];
      if !q.Queued(p.id) {
        QueuedGrows(q, NameOf(p));
      }
    }
  }

  lemma {:induction false} DistinctIdsCounted(order: seq<Pack>)
    requires forall i, j | 0 <= i < j < |order| :: order[i].id != order[j].id
    ensures |set j | 0 <= j < |order| :: order[j].id| == |order|
  {
    var ids := set j | 0 <= j < |order| :: order[j].id;
    if order != [] {
      var front, p := order[..|order| - 1], order[|order| - 1];
      DistinctIdsCounted(front);
      var fewer := set j | 0 <= j < |front| :: front[j].id;
      assert ids == fewer + {p.id};
    }
  }

  lemma {:induction false} IdsAtMost(names: seq<Name>)
    ensures |Ids(names)| <= |names|
  {
    if names != [] {
      IdsAtMost(names[..|names| - 1]);
      assert Ids(names) == Ids(names[..|names| - 1]) + {names[|names| - 1].id};
    }
  }

  lemma SubsetOfSameSize(a: set<nat>, b: set<nat>)
    requires a <= b && |b| <= |a|
    ensures a == b
  {
    assert b == a + (b - a);
  }

  lemma OrderHasAllIds(cfg: Config)
    requires OrderOf(cfg.packs, cfg.names, cfg.order) && Holds(cfg.packs, cfg.names, Request(cfg.packs, cfg.names).value)
    ensures Ids(cfg.names) == IdsFrom(cfg, 0)
  {
    var m := Request(cfg.packs, cfg.names).value;
    forall id | id in IdsFrom(cfg, 0) ensures id in Ids(cfg.names) {
      assert id in m;
      var j :| 0 <= j < |cfg.names| && cfg.names[j].id == id;
    }
    DistinctIdsCounted(cfg.order);
    assert IdsFrom(cfg, 0) == set j | 0 <= j < |cfg.order| :: cfg.order[j].id;
    IdsAtMost(cfg.names);
    SubsetOfSameSize(IdsFrom(cfg, 0), Ids(cfg.names));
  }

  /** The packs of an order are packs of the listener. */
  lemma OrderIsListed(packs: seq<Pack>, names: seq<Name>, order: seq<Pack>, j: nat)
    requires OrderOf(packs, names, order) && j < |order| && Holds(packs, names, Request(packs, names).value)
    ensures order[j] in packs
  {
    var m := Request(packs, names).value;
    var k :| 0 <= k < |names| && names[k].id == order[j].id;
    assert Lookup(packs, names[k]) == Some(m[names[k].id]);
    LookupFinds(packs, names[k]);
  }

  /** A listener's packs that a dialer without callback and cache can get. */
  predicate Plain(packs: seq<Pack>)
  {
    forall i | 0 <= i < |packs| ::
      packs[i].content != [] && !packs[i].behaviours && ReadPack(packs, packs[i].content) == Some(packs[i])
  }

  /** No UUID is listed in two versions. */
  predicate OneVersionEach(packs: seq<Pack>)
  {
    forall i, j | 0 <= i < |packs| && 0 <= j < |packs| && packs[i].id == packs[j].id :: packs[i].version == packs[j].version
  }

  /** Of two versions of a UUID the dialer only asks for the first, and then misses the other one in the stack. */
  lemma StackAcceptedIff(packs: seq<Pack>, order: seq<Pack>)
    requires Plain(packs) && OrderOf(packs, Sort(packs, []).wanted, order)
    ensures Accepts(Sort(packs, []).ignored, Sort(packs, []).cached + order, packs) <==> OneVersionEach(packs)
  {
    var names := Sort(packs, []).wanted;
    SortCounts(packs, [], |packs|);
    RequestHolds(packs, names);
    EverythingIsWanted(packs, |packs|);
    var held := Sort(packs, []).cached + order;
    assert held == order;
    if Accepts([], order, packs) {
      OneVersionNeeded(packs, order);
    }
    if OneVersionEach(packs) {
      forall i | 0 <= i < |packs| ensures Has([], order, NameOf(packs[i])) {
        OneVersionHas(packs, names, order, i);
      }
    }
  }

  lemma OneVersionNeeded(packs: seq<Pack>, order: seq<Pack>)
    requires Accepts([], order, packs) && forall i, j | 0 <= i < j < |order| :: order[i].id != order[j].id
    ensures OneVersionEach(packs)
  {
    forall i, j | 0 <= i < |packs| && 0 <= j < |packs| && packs[i].id == packs[j].id
      ensures packs[i].version == packs[j].version
    {
      assert Has([], order, NameOf(packs[i])) && Has([], order, NameOf(packs[j]));
      var k :| 0 <= k < |order| && NameOf(order[k]) == NameOf(packs[i]) && !order[k].behaviours;
      var l :| 0 <= l < |order| && NameOf(order[l]) == NameOf(packs[j]) && !order[l].behaviours;
    }
  }

  lemma OneVersionHas(packs: seq<Pack>, names: seq<Name>, order: seq<Pack>, i: nat)
    requires Plain(packs) && OneVersionEach(packs) && OrderOf(packs, names, order) && i < |packs|
    requires Holds(packs, names, Request(packs, names).value) && Sorting(names, [], [], |packs|).Queued(packs[i].id)
    ensures Has([], order, NameOf(packs[i]))
  {
    var cfg := Config(packs, [], names, order, 1, true, true);
    OrderHasAllIds(cfg);
    var q :| 0 <= q < |names| && names[q].id == packs[i].id;
    assert packs[i].id in IdsFrom(cfg, 0);
    var j :| 0 <= j < |order| && order[j].id == packs[i].id;
    OrderIsListed(packs, names, order, j);
    var k :| 0 <= k < |packs| && packs[k] == order[j];
    assert packs[k].version == packs[i].version;
  }

  lemma OrderIsPlain(packs: seq<Pack>, names: seq<Name>, order: seq<Pack>, j: nat)
    requires Plain(packs) && OrderOf(packs, names, order) && j < |order| && Holds(packs, names, Request(packs, names).value)
    ensures order[j].content != [] && ReadPack(packs, order[j].content) == Some(order[j])
  {
    hide OrderOf, Holds, ReadPack;
    OrderIsListed(packs, names, order, j);
    var k :| 0 <= k < |packs| && packs[k] == order[j];
  }

  lemma OrderIsAgreed(cfg: Config)
    requires Plain(cfg.packs) && cfg.names == Sort(cfg.packs, cfg.verdicts).wanted
    requires OrderOf(cfg.packs, cfg.names, cfg.order) && Holds(cfg.packs, cfg.names, Request(cfg.packs, cfg.names).value)
    ensures Agreed(cfg) && forall j | 0 <= j < |cfg.order| :: cfg.order[j].content != []
  {
    OrderHasAllIds(cfg);
    hide Plain, Holds, ReadPack, Sort, Ids, IdsFrom;
    forall j | 0 <= j < |cfg.order|
      ensures cfg.order[j].content != [] && ReadPack(cfg.packs, cfg.order[j].content) == Some(cfg.order[j])
    {
      OrderIsPlain(cfg.packs, cfg.names, cfg.order, j);
    }
  }

  /** Every chunk size, both kinds of connection and every order are covered. */
  lemma PlainIsValid(cfg: Config)
    requires Plain(cfg.packs) && cfg.chunk > 0 && cfg.verdicts == []
    requires cfg.names == Sort(cfg.packs, []).wanted && OrderOf(cfg.packs, cfg.names, cfg.order)
    ensures ValidConfig(cfg)
  {
    SortCounts(cfg.packs, [], |cfg.packs|);
    RequestHolds(cfg.packs, cfg.names);
    OrderIsAgreed(cfg);
    OrderIsOrdered(cfg);
    hide *;
    ValidOf(cfg);
  }

  lemma ValidOf(cfg: Config)
    requires cfg.chunk > 0 && Agreed(cfg) && Ordered(cfg)
    requires forall i, j | 0 <= i < j < |cfg.order| :: cfg.order[i].id != cfg.order[j].id
    requires forall j | 0 <= j < |cfg.order| :: cfg.order[j].content != []
    ensures ValidConfig(cfg)
  {
    hide Agreed, Ordered;
  }

  lemma OrderIsOrdered(cfg: Config)
    requires OrderOf(cfg.packs, cfg.names, cfg.order) && Holds(cfg.packs, cfg.names, Request(cfg.packs, cfg.names).value)
    ensures Ordered(cfg)
    ensures forall i, j | 0 <= i < j < |cfg.order| :: cfg.order[i].id != cfg.order[j].id
  {
  }

  lemma WantsSome(packs: seq<Pack>)
    requires Plain(packs)
    ensures Sort(packs, []).wanted == [] <==> packs == []
  {
    SortCounts(packs, [], |packs|);
    EverythingIsWanted(packs, |packs|);
  }
}
