/**
 * Resource packs before a byte of them is sent: what the dialer asks for out of the packs a listener announces, what the
 * listener looks up for it, and whether the dialer will accept the stack.
 */
module Packs {
  import opened Wire

  /** A pack as its archive tells: UUIDs and versions are numbers here, the content is the archive itself. */
  datatype Pack = Pack(id: nat, version: nat, content: Bytes, behaviours: bool)

  /** A pack as it is asked for: by UUID and version, or by UUID alone. */
  datatype Name = Name(id: nat, version: nat) | Bare(id: nat)

  function NameOf(p: Pack): Name { Name(p.id, p.version) }

  /** What the dialer's callback and cache say about one announced pack. */
  datatype Verdict = Download | Ignore | Cached(held: Pack)

  /** A dialer without an opinion downloads. */
  function VerdictAt(verdicts: seq<Verdict>, i: nat): Verdict
  {
    if i < |verdicts| then verdicts[i] else Download
  }

  /** ResourcePackCacheKey.Matches. */
  predicate Matches(held: Pack, p: Pack)
  {
    NameOf(held) == NameOf(p) && |held.content| == |p.content|
  }

  /** The dialer's queue after some of the announced packs. */
  datatype Sorting = Sorting(wanted: seq<Name>, ignored: seq<Name>, cached: seq<Pack>, amount: int) {
    predicate Queued(id: nat) { exists j | 0 <= j < |wanted| :: wanted[j].id == id }
  }

  /** One round of the loop over the announced packs. */
  function SortOne(q: Sorting, p: Pack, v: Verdict): Sorting
  {
    if q.Queued(p.id) then q.(amount := q.amount - 1)
    else match v
      case Ignore => q.(ignored := q.ignored + [NameOf(p)], amount := q.amount - 1)
      case Cached(held) =>
        if Matches(held, p) then q.(cached := q.cached + [held], amount := q.amount - 1)
        else q.(wanted := q.wanted + [NameOf(p)])
      case Download => q.(wanted := q.wanted + [NameOf(p)])
  }

  function Sort(packs: seq<Pack>, verdicts: seq<Verdict>): Sorting
  {
    SortFirst(packs, verdicts, |packs|)
  }

  function SortFirst(packs: seq<Pack>, verdicts: seq<Verdict>, n: nat): Sorting
    requires n <= |packs|
  {
    if n == 0 then Sorting([], [], [], |packs|)
    else SortOne(SortFirst(packs, verdicts, n - 1), packs[n - 1], VerdictAt(verdicts, n - 1))
  }

  /** The loop of handleResourcePacksInfo. */
  method SortLoop(packs: seq<Pack>, verdicts: seq<Verdict>) returns (q: Sorting)
    ensures q == Sort(packs, verdicts)
  {
    var amount, wanted, ignored, cached := |packs|, [], [], [];
    var queued: set<nat> := {};
    for i := 0 to |packs|
      invariant SortFirst(packs, verdicts, i) == Sorting(wanted, ignored, cached, amount)
      invariant forall id :: id in queued <==> Sorting(wanted, ignored, cached, amount).Queued(id)
    {
      var p := packs[i];
      ghost var before := Sorting(wanted, ignored, cached, amount);
      if p.id in queued {
        amount := amount - 1;
      } else if VerdictAt(verdicts, i) == Ignore {
        ignored, amount := ignored + [NameOf(p)], amount - 1;
      } else if VerdictAt(verdicts, i).Cached? && Matches(VerdictAt(verdicts, i).held, p) {
        cached, amount := cached + [VerdictAt(verdicts, i).held], amount - 1;
      } else {
        wanted := wanted + [NameOf(p)];
        QueuedGrows(before, NameOf(p));
        queued := queued + {p.id};
      }
      assert forall id :: Sorting(wanted, ignored, cached, amount).Queued(id) <==> before.(wanted := wanted).Queued(id);
    }
    q := Sorting(wanted, ignored, cached, amount);
  }

  lemma QueuedGrows(q: Sorting, n: Name)
    ensures forall id :: q.(wanted := q.wanted + [n]).Queued(id) <==> q.Queued(id) || id == n.id
  {
    var more := q.(wanted := q.wanted + [n]);
    forall id ensures more.Queued(id) <==> q.Queued(id) || id == n.id {
      if q.Queued(id) {
        var j :| 0 <= j < |q.wanted| && q.wanted[j].id == id;
        assert more.wanted[j].id == id;
      }
      assert more.wanted[|q.wanted|].id == n.id;
    }
  }

  predicate DistinctIds(names: seq<Name>)
  {
    forall i, j | 0 <= i < j < |names| :: names[i].id != names[j].id
  }

  predicate Answers(p: Pack, n: Name) { p.id == n.id && (n.Bare? || p.version == n.version) }

  predicate Listed(packs: seq<Pack>, n: Name)
  {
    exists i | 0 <= i < |packs| :: Answers(packs[i], n)
  }

  /** However many packs are duplicates, ignored or cached: what is counted is what is asked for, each UUID once. */
  lemma {:induction false} SortCounts(packs: seq<Pack>, verdicts: seq<Verdict>, n: nat)
    requires n <= |packs|
    ensures var q := SortFirst(packs, verdicts, n);
      && q.amount == |packs| - n + |q.wanted|
      && DistinctIds(q.wanted)
      && forall j | 0 <= j < |q.wanted| :: Listed(packs, q.wanted[j])
  {
    if n > 0 {
      SortCounts(packs, verdicts, n - 1);
      assert Answers(packs[n - 1], NameOf(packs[n - 1]));
    }
  }

  // ------------------------------------------------------------ the stack

  /** Conn.hasPack, leaving aside the packs every client has. */
  predicate Has(ignored: seq<Name>, packs: seq<Pack>, n: Name)
  {
    n in ignored || exists i | 0 <= i < |packs| :: NameOf(packs[i]) == n && !packs[i].behaviours
  }

  predicate Accepts(ignored: seq<Name>, held: seq<Pack>, stack: seq<Pack>)
  {
    forall i | 0 <= i < |stack| :: Has(ignored, held, NameOf(stack[i]))
  }

  // ----------------------------------------------------------- the request

  /** The first pack of a name, as the listener looks it up. */
  function Lookup(packs: seq<Pack>, n: Name): Option<Pack>
  {
    if packs == [] then None
    else if Answers(packs[0], n) then Some(packs[0])
    else Lookup(packs[1..], n)
  }

  lemma {:induction false} LookupFinds(packs: seq<Pack>, n: Name)
    ensures Listed(packs, n) <==> Lookup(packs, n).Some?
    ensures Lookup(packs, n).Some? ==> Answers(Lookup(packs, n).value, n) && Lookup(packs, n).value in packs
  {
    if packs != [] {
      LookupFinds(packs[1..], n);
      if Listed(packs[1..], n) {
        var i :| 0 <= i < |packs[1..]| && Answers(packs[1..][i], n);
        assert Answers(packs[i + 1], n);
      }
      if Listed(packs, n) {
        var i :| 0 <= i < |packs| && Answers(packs[i], n);
        if i > 0 { assert Answers(packs[1..][i - 1], n); }
      }
    }
  }

  /** resourcePackQueue.Request: every name must be known; a later name of the same UUID replaces an earlier one. */
  function Request(packs: seq<Pack>, names: seq<Name>): Option<map<nat, Pack>>
  {
    if names == [] then Some(map[])
    else
      var n := names[|names| - 1];
      match Request(packs, names[..|names| - 1])
      case None => None
      case Some(m) => if Lookup(packs, n).None? then None else Some(m[n.id := Lookup(packs, n).value])
  }

  /** A request is granted exactly if every name in it, with a version or without, is a pack of the listener's. */
  lemma {:induction false} RequestGrantedIff(packs: seq<Pack>, names: seq<Name>)
    ensures Request(packs, names).Some? <==> forall j | 0 <= j < |names| :: Listed(packs, names[j])
  {
    if names != [] {
      var front, n := names[..|names| - 1], names[|names| - 1];
      RequestGrantedIff(packs, front);
      LookupFinds(packs, n);
      assert forall j | 0 <= j < |front| :: front[j] == names[j];
    }
  }

  /** The map holds the listener's pack of every name, and nothing else. */
  predicate Holds(packs: seq<Pack>, names: seq<Name>, m: map<nat, Pack>)
  {
    && |m| == |names|
    && (forall j | 0 <= j < |names| :: names[j].id in m && Lookup(packs, names[j]) == Some(m[names[j].id]))
    && (forall id | id in m :: exists j | 0 <= j < |names| :: names[j].id == id)
  }

  /** Names with distinct UUIDs that are all known: one pack each. */
  lemma {:induction false} RequestHolds(packs: seq<Pack>, names: seq<Name>)
    requires DistinctIds(names) && forall j | 0 <= j < |names| :: Listed(packs, names[j])
    ensures Request(packs, names).Some? && Holds(packs, names, Request(packs, names).value)
  {
    if names != [] {
      var front, n := names[..|names| - 1], names[|names| - 1];
      forall j | 0 <= j < |front| ensures Listed(packs, front[j]) {
        assert front[j] == names[j];
      }
      RequestHolds(packs, front);
      LookupFinds(packs, n);
      HoldsOneMore(packs, names, Request(packs, front).value, Lookup(packs, n).value);
    }
  }

  lemma HoldsOneMore(packs: seq<Pack>, names: seq<Name>, m: map<nat, Pack>, p: Pack)
    requires names != [] && DistinctIds(names) && Holds(packs, names[..|names| - 1], m)
    requires Lookup(packs, names[|names| - 1]) == Some(p)
    ensures Holds(packs, names, m[names[|names| - 1].id := p])
  {
    var front, n := names[..|names| - 1], names[|names| - 1];
    forall id | id in m ensures id != n.id {
      var j :| 0 <= j < |front| && front[j].id == id;
      assert names[j] == front[j];
    }
    var more := m[n.id := p];
    forall j | 0 <= j < |names| ensures names[j].id in more && Lookup(packs, names[j]) == Some(more[names[j].id]) {
      if j < |front| { assert front[j] == names[j]; }
    }
    forall id | id in more ensures exists j | 0 <= j < |names| :: names[j].id == id {
      if id == n.id {
      } else {
        var j :| 0 <= j < |front| && front[j].id == id;
        assert names[j].id == id;
      }
    }
  }
}
