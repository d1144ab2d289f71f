/**
 * What becomes of every pack a listener announces, pack by pack: which ones the dialer asks for, which it ignores, which
 * its cache has; what the listener then sends; and when the dialer accepts the stack.
 */
module PackChoice {
  import opened Wire
  import opened Packs
  import opened PackOrders
  import opened Session

  // --------------------------------------------------------- the verdict on a pack

  /** The callback said no to the i-th pack. */
  predicate Declined(verdicts: seq<Verdict>, i: nat) { i < |verdicts| && verdicts[i] == Ignore }

  /** The cache holds the i-th pack: the same UUID and version, and as many bytes. */
  predicate InCache(packs: seq<Pack>, verdicts: seq<Verdict>, i: nat)
    requires i < |packs|
  {
    && i < |verdicts| && verdicts[i].Cached?
    && verdicts[i].held.id == packs[i].id && verdicts[i].held.version == packs[i].version
    && |verdicts[i].held.content| == |packs[i].content|
  }

  /** A pack of the UUID was asked for among the first n. */
  predicate AskedBefore(packs: seq<Pack>, verdicts: seq<Verdict>, n: nat, id: nat)
    requires n <= |packs|
    decreases n, 0
  {
    exists j | 0 <= j < n :: packs[j].id == id && Asked(packs, verdicts, j)
  }

  /** The i-th pack is asked for: the first of its UUID that is neither declined nor in the cache. */
  predicate Asked(packs: seq<Pack>, verdicts: seq<Verdict>, i: nat)
    requires i < |packs|
    decreases i, 1
  {
    !AskedBefore(packs, verdicts, i, packs[i].id) && !Declined(verdicts, i) && !InCache(packs, verdicts, i)
  }

  /** Packs that come before any of their UUID is asked for. */
  predicate Open(packs: seq<Pack>, verdicts: seq<Verdict>, i: nat)
    requires i < |packs|
  {
    !AskedBefore(packs, verdicts, i, packs[i].id)
  }

  /** Indices below n, front to back. */
  predicate Indices(n: nat, at: seq<nat>)
  {
    (forall k | 0 <= k < |at| :: at[k] < n) && forall k, l | 0 <= k < l < |at| :: at[k] < at[l]
  }

  // ------------------------------------------------------------ the dialer's choice

  /** The names of the asked and the ignored packs, and the archives of those in the cache, by their indices. */
  predicate Chosen(packs: seq<Pack>, verdicts: seq<Verdict>, n: nat, q: Sorting, ws: seq<nat>, gs: seq<nat>, cs: seq<nat>)
    requires n <= |packs|
  {
    && Indices(n, ws) && Indices(n, gs) && Indices(n, cs)
    && (forall i | 0 <= i < n :: i in ws <==> Asked(packs, verdicts, i))
    && (forall i | 0 <= i < n :: i in gs <==> Open(packs, verdicts, i) && Declined(verdicts, i))
    && (forall i | 0 <= i < n :: i in cs <==> Open(packs, verdicts, i) && InCache(packs, verdicts, i))
    && |q.wanted| == |ws| && |q.ignored| == |gs| && |q.cached| == |cs|
    && (forall k | 0 <= k < |ws| :: q.wanted[k] == Name(packs[ws[k]].id, packs[ws[k]].version))
    && (forall k | 0 <= k < |gs| :: q.ignored[k] == Name(packs[gs[k]].id, packs[gs[k]].version))
    && (forall k | 0 <= k < |cs| :: cs[k] < |verdicts| && verdicts[cs[k]] == Cached(q.cached[k]))
    && q.amount == |packs| - n + |ws|
  }

  /**
   * After the loop over all announced packs: the names asked for are those of the asked packs, the names ignored those of
   * the declined ones that no pack of their UUID was asked for before, the packs kept those of the cache, each front to
   * back; and as many packs are counted as were asked for.
   */
  lemma SortMeaning(packs: seq<Pack>, verdicts: seq<Verdict>) returns (ws: seq<nat>, gs: seq<nat>, cs: seq<nat>)
    ensures Chosen(packs, verdicts, |packs|, Sort(packs, verdicts), ws, gs, cs)
  {
    ws, gs, cs := SortFirstMeaning(packs, verdicts, |packs|);
  }

  lemma {:induction false} SortFirstMeaning(packs: seq<Pack>, verdicts: seq<Verdict>, n: nat)
    returns (ws: seq<nat>, gs: seq<nat>, cs: seq<nat>)
    requires n <= |packs|
    ensures Chosen(packs, verdicts, n, SortFirst(packs, verdicts, n), ws, gs, cs)
  {
    if n == 0 {
      ws, gs, cs := [], [], [];
    } else {
      ws, gs, cs := SortFirstMeaning(packs, verdicts, n - 1);
      var q := SortFirst(packs, verdicts, n - 1);
      QueuedIsAsked(packs, verdicts, n - 1, q, ws, gs, cs, packs[n - 1].id);
      ws, gs, cs := OneMore(packs, verdicts, n - 1, q, ws, gs, cs);
    }
  }

  lemma QueuedIsAsked(packs: seq<Pack>, verdicts: seq<Verdict>, n: nat, q: Sorting,
                      ws: seq<nat>, gs: seq<nat>, cs: seq<nat>, id: nat)
    requires n <= |packs| && Chosen(packs, verdicts, n, q, ws, gs, cs)
    ensures q.Queued(id) <==> AskedBefore(packs, verdicts, n, id)
  {
    hide Asked;
    if q.Queued(id) {
      var k :| 0 <= k < |q.wanted| && q.wanted[k].id == id;
      assert ws[k] in ws && packs[ws[k]].id == id;
    }
    if AskedBefore(packs, verdicts, n, id) {
      var j :| 0 <= j < n && packs[j].id == id && Asked(packs, verdicts, j);
      var k :| 0 <= k < |ws| && ws[k] == j;
      assert q.wanted[k].id == id;
    }
  }

  lemma InOneMore(at: seq<nat>, n: nat)
    requires Indices(n, at)
    ensures Indices(n + 1, at) && Indices(n + 1, at + [n]) && n !in at
    ensures forall i :: i in at + [n] <==> i in at || i == n
  {
  }

  lemma OneMore(packs: seq<Pack>, verdicts: seq<Verdict>, n: nat, q: Sorting, ws: seq<nat>, gs: seq<nat>, cs: seq<nat>)
    returns (ws': seq<nat>, gs': seq<nat>, cs': seq<nat>)
    requires n < |packs| && Chosen(packs, verdicts, n, q, ws, gs, cs)
    requires q.Queued(packs[n].id) <==> AskedBefore(packs, verdicts, n, packs[n].id)
    ensures Chosen(packs, verdicts, n + 1, SortOne(q, packs[n], VerdictAt(verdicts, n)), ws', gs', cs')
  {
    hide AskedBefore, Indices;
    InOneMore(ws, n);
    InOneMore(gs, n);
    InOneMore(cs, n);
    ws', gs', cs' := ws, gs, cs;
    if q.Queued(packs[n].id) {
    } else if Declined(verdicts, n) {
      gs' := gs + [n];
    } else if InCache(packs, verdicts, n) {
      cs' := cs + [n];
    } else {
      ws' := ws + [n];
    }
  }

  // ---------------------------------------------------------- what the listener sends

  /** The i-th pack has the UUID of the name, and its version if the name has one. */
  predicate Named(packs: seq<Pack>, i: nat, n: Name)
    requires i < |packs|
  {
    packs[i].id == n.id && (n.Bare? || packs[i].version == n.version)
  }

  /** The i-th pack is the first of the name. */
  predicate FirstNamed(packs: seq<Pack>, i: nat, n: Name)
    requires i < |packs|
  {
    Named(packs, i, n) && forall j | 0 <= j < i :: !Named(packs, j, n)
  }

  /** The pack sent for a name is the first that has it. */
  lemma {:induction false} LookupIsFirst(packs: seq<Pack>, n: Name)
    ensures match Lookup(packs, n)
            case None => forall i | 0 <= i < |packs| :: !Named(packs, i, n)
            case Some(p) => exists i | 0 <= i < |packs| :: FirstNamed(packs, i, n) && packs[i] == p
  {
    if packs == [] {
    } else if Answers(packs[0], n) {
      assert FirstNamed(packs, 0, n);
    } else {
      LookupIsFirst(packs[1..], n);
      assert forall i | 0 <= i < |packs| - 1 :: Named(packs, i + 1, n) <==> Named(packs[1..], i, n);
      if Lookup(packs[1..], n).Some? {
        var i :| 0 <= i < |packs[1..]| && FirstNamed(packs[1..], i, n) && packs[1..][i] == Lookup(packs, n).value;
        forall j | 0 <= j < i + 1 ensures !Named(packs, j, n) {
          if j > 0 { assert !Named(packs[1..], j - 1, n); }
        }
        assert FirstNamed(packs, i + 1, n);
      } else {
        forall i | 0 <= i < |packs| ensures !Named(packs, i, n) {
          if i > 0 { assert !Named(packs[1..], i - 1, n); }
        }
      }
    }
  }

  // ------------------------------------------------------------------- the stack

  /**
   * The dialer has something of the name of the i-th pack: it was ignored, or the cache had it, or the pack fetched for it
   * is a pack without behaviours.
   */
  predicate Covered(packs: seq<Pack>, verdicts: seq<Verdict>, i: nat)
    requires i < |packs|
  {
    var n := Name(packs[i].id, packs[i].version);
    exists j | 0 <= j < |packs| :: Named(packs, j, n) && Covers(packs, verdicts, j)
  }

  predicate Covers(packs: seq<Pack>, verdicts: seq<Verdict>, j: nat)
    requires j < |packs|
  {
    || (Open(packs, verdicts, j) && Declined(verdicts, j))
    || (Open(packs, verdicts, j) && InCache(packs, verdicts, j) && !verdicts[j].held.behaviours)
    || (Asked(packs, verdicts, j) && FetchedIsPlain(packs, packs[j].id, packs[j].version))
  }

  /** The first pack of the UUID and version is without behaviours. */
  predicate FetchedIsPlain(packs: seq<Pack>, id: nat, version: nat)
  {
    exists m | 0 <= m < |packs| :: FirstNamed(packs, m, Name(id, version)) && !packs[m].behaviours
  }

  /** The packs of the order are those that are looked up for the names. */
  lemma NameOfOrder(packs: seq<Pack>, names: seq<Name>, order: seq<Pack>, l: nat) returns (k: nat)
    requires OrderOf(packs, names, order) && l < |order| && Holds(packs, names, Request(packs, names).value)
    ensures k < |names| && Lookup(packs, names[k]) == Some(order[l])
  {
    var m := Request(packs, names).value;
    k :| 0 <= k < |names| && names[k].id == order[l].id;
  }

  lemma OrderOfName(packs: seq<Pack>, names: seq<Name>, order: seq<Pack>, k: nat) returns (l: nat)
    requires OrderOf(packs, names, order) && k < |names| && Holds(packs, names, Request(packs, names).value)
    ensures l < |order| && Lookup(packs, names[k]) == Some(order[l])
  {
    var cfg := Config(packs, [], names, order, 1, true, true);
    OrderHasAllIds(cfg);
    assert names[k].id in Ids(names);
    l :| 0 <= l < |order| && order[l].id == names[k].id;
  }

  lemma HasIsCovered(packs: seq<Pack>, verdicts: seq<Verdict>, order: seq<Pack>, i: nat)
    requires OrderOf(packs, Sort(packs, verdicts).wanted, order) && i < |packs|
    requires Holds(packs, Sort(packs, verdicts).wanted, Request(packs, Sort(packs, verdicts).wanted).value)
    requires Has(Sort(packs, verdicts).ignored, Sort(packs, verdicts).cached + order, NameOf(packs[i]))
    ensures Covered(packs, verdicts, i)
  {
    hide OrderOf, Holds, Asked, AskedBefore, FetchedIsPlain, Sort;
    var q, n := Sort(packs, verdicts), NameOf(packs[i]);
    var ws, gs, cs := SortMeaning(packs, verdicts);
    if n in q.ignored {
      var k :| 0 <= k < |q.ignored| && q.ignored[k] == n;
      assert gs[k] in gs && Named(packs, gs[k], n) && Covers(packs, verdicts, gs[k]);
    } else {
      var k :| 0 <= k < |q.cached + order| && NameOf((q.cached + order)[k]) == n && !(q.cached + order)[k].behaviours;
      if k < |q.cached| {
        assert cs[k] in cs && Named(packs, cs[k], n) && Covers(packs, verdicts, cs[k]);
      } else {
        var l := NameOfOrder(packs, q.wanted, order, k - |q.cached|);
        LookupIsFirst(packs, q.wanted[l]);
        FetchedPlain(packs, q.wanted[l], order[k - |q.cached|]);
        assert ws[l] in ws && Named(packs, ws[l], n) && Covers(packs, verdicts, ws[l]);
      }
    }
  }

  lemma FetchedPlain(packs: seq<Pack>, n: Name, p: Pack)
    requires Lookup(packs, n) == Some(p) && n.Name?
    ensures NameOf(p) == n && (FetchedIsPlain(packs, n.id, n.version) <==> !p.behaviours)
  {
    LookupIsFirst(packs, n);
    var i :| 0 <= i < |packs| && FirstNamed(packs, i, n) && packs[i] == p;
    if FetchedIsPlain(packs, n.id, n.version) {
      var m :| 0 <= m < |packs| && FirstNamed(packs, m, n) && !packs[m].behaviours;
      assert m == i by { assert Named(packs, m, n) && Named(packs, i, n); }
    }
  }

  lemma CoveredHas(packs: seq<Pack>, verdicts: seq<Verdict>, order: seq<Pack>, i: nat)
    requires OrderOf(packs, Sort(packs, verdicts).wanted, order) && i < |packs|
    requires Holds(packs, Sort(packs, verdicts).wanted, Request(packs, Sort(packs, verdicts).wanted).value)
    requires Covered(packs, verdicts, i)
    ensures Has(Sort(packs, verdicts).ignored, Sort(packs, verdicts).cached + order, NameOf(packs[i]))
  {
    hide OrderOf, Holds, Asked, AskedBefore, FetchedIsPlain, Sort;
    var q, n := Sort(packs, verdicts), NameOf(packs[i]);
    var ws, gs, cs := SortMeaning(packs, verdicts);
    var all := q.cached + order;
    var j :| 0 <= j < |packs| && Named(packs, j, n) && Covers(packs, verdicts, j);
    if Open(packs, verdicts, j) && Declined(verdicts, j) {
      var k :| 0 <= k < |gs| && gs[k] == j;
      assert q.ignored[k] == n;
    } else if Open(packs, verdicts, j) && InCache(packs, verdicts, j) && !verdicts[j].held.behaviours {
      var k :| 0 <= k < |cs| && cs[k] == j;
      assert all[k] == q.cached[k] && NameOf(all[k]) == n;
    } else {
      var k :| 0 <= k < |ws| && ws[k] == j;
      var l := OrderOfName(packs, q.wanted, order, k);
      FetchedPlain(packs, n, order[l]);
      assert all[|q.cached| + l] == order[l];
    }
  }

  /** Whatever the callback and the cache say, the dialer accepts the stack exactly if every pack in it is covered. */
  lemma AcceptedIffCovered(packs: seq<Pack>, verdicts: seq<Verdict>, order: seq<Pack>)
    requires OrderOf(packs, Sort(packs, verdicts).wanted, order)
    ensures Accepts(Sort(packs, verdicts).ignored, Sort(packs, verdicts).cached + order, packs)
       <==> forall i | 0 <= i < |packs| :: Covered(packs, verdicts, i)
  {
    hide Has, Covered, OrderOf, Holds;
    var q := Sort(packs, verdicts);
    SortCounts(packs, verdicts, |packs|);
    RequestHolds(packs, q.wanted);
    var all := q.cached + order;
    forall i | 0 <= i < |packs| ensures Has(q.ignored, all, NameOf(packs[i])) <==> Covered(packs, verdicts, i) {
      if Has(q.ignored, all, NameOf(packs[i])) { HasIsCovered(packs, verdicts, order, i); }
      if Covered(packs, verdicts, i) { CoveredHas(packs, verdicts, order, i); }
    }
  }
}
