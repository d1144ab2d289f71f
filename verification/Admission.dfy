/**
 * Listeners that share a player count: the compare-and-swap loop that admits connections, the goroutines that release
 * their slots, and Close, which waits for those of its own listener.
 */
module Admission {
  import opened Wire

  /** A connection of a listener, from createConn to the end of its goroutine. */
  datatype Stage =
    | Created                            // newConn is done, the loop of add begins
    | Loaded(count: int, changes: nat)   // add has read the count, at this many changes of it
    | Full                               // the group was, and the connection is closed
    | Added                              // the swap went through
    | Serving                            // in the map and the wait group, handleConn runs
    | Released                           // group.remove is done
    | Over                               // the goroutine is done, and the wait group knows

  /** Added and removed count what the connection did to the count of the group. */
  datatype Conn = Conn(listener: nat, stage: Stage, added: nat, removed: nat)

  /** How far Close of a listener is. */
  datatype Phase = Accepting | Stopped | Closed

  /** A listener: its limit, what the wait group counts, and whether the accept loop has ended. */
  datatype Listener = Listener(max: int, waiting: int, looping: bool, phase: Phase)

  /** The count of the group; changes, admitted and released are history. */
  datatype Group = Group(
    count: int, changes: nat, admitted: nat, released: nat, conns: seq<Conn>, listeners: seq<Listener>)

  datatype Turn =
    | Create(l: nat)    // the accept loop got a connection
    | Load(c: nat)      // add reads the count, and gives up if it is at the limit
    | Swap(c: nat)      // add's compare-and-swap
    | Serve(c: nat)     // into the map and the wait group, and off goes the goroutine
    | Release(c: nat)   // handleConn ends
    | Finish(c: nat)    // out of the map and the wait group
    | Stop(l: nat)      // Close: the net listener is closed
    | Join(l: nat)      // the accept loop sees it and ends
    | Close(l: nat)     // Close returns

  /** Whether the accept loop of a listener is busy with a connection. */
  predicate Busy(g: Group, l: nat)
  {
    exists c | 0 <= c < |g.conns| ::
      g.conns[c].listener == l && (g.conns[c].stage.Created? || g.conns[c].stage.Loaded? || g.conns[c].stage.Added?)
  }

  predicate At(g: Group, c: nat) { c < |g.conns| && g.conns[c].listener < |g.listeners| }

  predicate Enabled(g: Group, t: Turn)
  {
    match t
    case Create(l) => l < |g.listeners| && g.listeners[l].looping && !Busy(g, l)
    case Load(c) => At(g, c) && g.conns[c].stage.Created?
    case Swap(c) => At(g, c) && g.conns[c].stage.Loaded?
    case Serve(c) => At(g, c) && g.conns[c].stage.Added?
    case Release(c) => At(g, c) && g.conns[c].stage.Serving?
    case Finish(c) => At(g, c) && g.conns[c].stage.Released?
    case Stop(l) => l < |g.listeners| && g.listeners[l].phase.Accepting?
    case Join(l) => l < |g.listeners| && g.listeners[l].looping && !g.listeners[l].phase.Accepting? && !Busy(g, l)
    case Close(l) =>
      l < |g.listeners| && g.listeners[l].phase.Stopped? && !g.listeners[l].looping && g.listeners[l].waiting == 0
  }

  function Put(g: Group, c: nat, stage: Stage): Group
    requires At(g, c)
  {
    g.(conns := g.conns[c := g.conns[c].(stage := stage)])
  }

  function Mark(g: Group, c: nat, added: nat, removed: nat): Group
    requires At(g, c)
  {
    var x := g.conns[c];
    g.(conns := g.conns[c := x.(added := x.added + added, removed := x.removed + removed)])
  }

  function Wait(g: Group, l: nat, more: int): Group
    requires l < |g.listeners|
  {
    g.(listeners := g.listeners[l := g.listeners[l].(waiting := g.listeners[l].waiting + more)])
  }

  function Step(g: Group, t: Turn): Group
    requires Enabled(g, t)
  {
    match t
    case Create(l) => g.(conns := g.conns + [Conn(l, Created, 0, 0)])
    case Load(c) =>
      var max := g.listeners[g.conns[c].listener].max;
      Put(g, c, if max > 0 && g.count >= max then Full else Loaded(g.count, g.changes))
    case Swap(c) =>
      if g.count == g.conns[c].stage.count then
        Mark(Put(g, c, Added), c, 1, 0).(count := g.count + 1, changes := g.changes + 1, admitted := g.admitted + 1)
      else Put(g, c, Created)
    case Serve(c) => Wait(Put(g, c, Serving), g.conns[c].listener, 1)
    case Release(c) =>
      Mark(Put(g, c, Released), c, 0, 1).(count := g.count - 1, changes := g.changes + 1, released := g.released + 1)
    case Finish(c) => Wait(Put(g, c, Over), g.conns[c].listener, -1)
    case Stop(l) => g.(listeners := g.listeners[l := g.listeners[l].(phase := Stopped)])
    case Join(l) => g.(listeners := g.listeners[l := g.listeners[l].(looping := false)])
    case Close(l) => g.(listeners := g.listeners[l := g.listeners[l].(phase := Closed)])
  }

  function Run(limits: seq<int>, turns: seq<Turn>): Group
  {
    if turns == [] then
      Group(0, 0, 0, 0, [], seq(|limits|, i requires 0 <= i < |limits| => Listener(limits[i], 0, true, Accepting)))
    else
      var g := Run(limits, turns[..|turns| - 1]);
      if Enabled(g, turns[|turns| - 1]) then Step(g, turns[|turns| - 1]) else g
  }

  // ------------------------------------------------------------------ counting

  /** A connection that holds a slot. */
  predicate Holds(s: Stage) { s.Added? || s.Serving? }

  /** A connection the wait group of its listener counts. */
  predicate Waited(s: Stage) { s.Serving? || s.Released? }

  function Slots(conns: seq<Conn>): nat
  {
    if conns == [] then 0 else Slots(conns[1..]) + if Holds(conns[0].stage) then 1 else 0
  }

  function WaitedOf(conns: seq<Conn>, l: nat): nat
  {
    if conns == [] then 0
    else WaitedOf(conns[1..], l) + if conns[0].listener == l && Waited(conns[0].stage) then 1 else 0
  }

  lemma {:induction false} SlotsChange(conns: seq<Conn>, c: nat, x: Conn)
    requires c < |conns|
    ensures Slots(conns[c := x]) ==
            Slots(conns) + (if Holds(x.stage) then 1 else 0) - (if Holds(conns[c].stage) then 1 else 0)
  {
    if c == 0 {
      assert conns[0 := x][1..] == conns[1..];
    } else {
      assert conns[c := x][1..] == conns[1..][c - 1 := x];
      SlotsChange(conns[1..], c - 1, x);
    }
  }

  lemma {:induction false} SlotsGrow(conns: seq<Conn>, x: Conn)
    ensures Slots(conns + [x]) == Slots(conns) + if Holds(x.stage) then 1 else 0
  {
    if conns == [] {
      assert conns + [x] == [x] && [x][1..] == [];
    } else {
      assert (conns + [x])[1..] == conns[1..] + [x];
      SlotsGrow(conns[1..], x);
    }
  }

  function One(x: Conn, l: nat): int { if x.listener == l && Waited(x.stage) then 1 else 0 }

  lemma {:induction false} WaitedChange(conns: seq<Conn>, c: nat, x: Conn, l: nat)
    requires c < |conns|
    ensures WaitedOf(conns[c := x], l) == WaitedOf(conns, l) + One(x, l) - One(conns[c], l)
  {
    if c == 0 {
      assert conns[0 := x][1..] == conns[1..];
    } else {
      assert conns[c := x][1..] == conns[1..][c - 1 := x];
      WaitedChange(conns[1..], c - 1, x, l);
    }
  }

  lemma {:induction false} WaitedGrow(conns: seq<Conn>, x: Conn, l: nat)
    ensures WaitedOf(conns + [x], l) == WaitedOf(conns, l) + One(x, l)
  {
    if conns == [] {
      assert conns + [x] == [x] && [x][1..] == [];
    } else {
      assert (conns + [x])[1..] == conns[1..] + [x];
      WaitedGrow(conns[1..], x, l);
    }
  }

  lemma {:induction false} NobodyWaited(conns: seq<Conn>, l: nat)
    requires WaitedOf(conns, l) == 0
    ensures forall c | 0 <= c < |conns| && conns[c].listener == l :: !Waited(conns[c].stage)
  {
    if conns != [] {
      NobodyWaited(conns[1..], l);
      assert forall c | 0 < c < |conns| :: conns[c] == conns[1..][c - 1];
    }
  }

  // ------------------------------------------------------------------ invariant

  /** The largest limit of the listeners, if every listener has one. */
  predicate Bounded(listeners: seq<Listener>, max: int)
  {
    forall l | 0 <= l < |listeners| :: 0 < listeners[l].max <= max
  }

  predicate Counted(g: Group)
  {
    && g.count == Slots(g.conns) && g.count == g.admitted - g.released && g.changes == g.admitted + g.released
    && (forall l | 0 <= l < |g.listeners| :: g.listeners[l].waiting == WaitedOf(g.conns, l))
  }

  /** A read count that is still the count of the group has been right ever since, or has come back. */
  predicate Recalls(g: Group, x: Conn)
  {
    x.stage.Loaded? ==>
      && x.listener < |g.listeners|
      && (g.listeners[x.listener].max > 0 ==> x.stage.count < g.listeners[x.listener].max)
      && x.stage.changes <= g.changes && (x.stage.changes == g.changes ==> x.stage.count == g.count)
  }

  /** A connection adds at most once, and releases what it added once. */
  predicate Honest(g: Group, x: Conn)
  {
    && x.listener < |g.listeners|
    && x.added == (if Holds(x.stage) || x.stage.Released? || x.stage.Over? then 1 else 0)
    && x.removed == (if x.stage.Released? || x.stage.Over? then 1 else 0)
  }

  predicate Remembered(g: Group)
  {
    forall c | 0 <= c < |g.conns| :: Recalls(g, g.conns[c])
  }

  /** An accept loop that has ended is not busy, and a listener that is closed has nobody left. */
  predicate Settled(g: Group)
  {
    forall l | 0 <= l < |g.listeners| ::
      && (!g.listeners[l].looping ==> !Busy(g, l))
      && (g.listeners[l].phase.Closed? ==> !g.listeners[l].looping && g.listeners[l].waiting == 0)
  }

  predicate Fair(g: Group)
  {
    forall c | 0 <= c < |g.conns| :: Honest(g, g.conns[c])
  }

  predicate Inv(g: Group)
  {
    Counted(g) && Remembered(g) && Settled(g) && Fair(g)
  }

  /** The conns and listeners of a step, as one change to either. */
  lemma CountedStep(g: Group, t: Turn)
    requires Inv(g) && Enabled(g, t)
    ensures Counted(Step(g, t))
  {
    hide Recalls, Honest, Busy, Settled, Fair, Remembered;
    var h := Step(g, t);
    if t.Create? {
      SlotsGrow(g.conns, Conn(t.l, Created, 0, 0));
      forall l | 0 <= l < |g.listeners| ensures WaitedOf(h.conns, l) == WaitedOf(g.conns, l) {
        WaitedGrow(g.conns, Conn(t.l, Created, 0, 0), l);
      }
    } else if t.Load? || t.Swap? || t.Serve? || t.Release? || t.Finish? {
      assert h.conns == g.conns[t.c := h.conns[t.c]];
      SlotsChange(g.conns, t.c, h.conns[t.c]);
      forall l | 0 <= l < |g.listeners|
        ensures WaitedOf(h.conns, l) == WaitedOf(g.conns, l) + One(h.conns[t.c], l) - One(g.conns[t.c], l)
      {
        WaitedChange(g.conns, t.c, h.conns[t.c], l);
      }
    }
  }

  /** What a step leaves of a connection that is not its own. */
  lemma OthersStep(g: Group, t: Turn, c: nat)
    requires Enabled(g, t) && c < |g.conns|
    requires t.Load? || t.Swap? || t.Serve? || t.Release? || t.Finish? ==> c != t.c
    ensures var h := Step(g, t);
      && |h.listeners| == |g.listeners| && c < |h.conns| && h.conns[c] == g.conns[c]
      && (forall l | 0 <= l < |g.listeners| :: h.listeners[l].max == g.listeners[l].max)
      && (h.changes == g.changes ==> h.count == g.count) && h.changes >= g.changes
  {
  }

  lemma OwnStep(g: Group, t: Turn)
    requires Enabled(g, t) && (t.Load? || t.Swap? || t.Serve? || t.Release? || t.Finish?)
    requires Honest(g, g.conns[t.c])
    ensures Recalls(Step(g, t), Step(g, t).conns[t.c]) && Honest(Step(g, t), Step(g, t).conns[t.c])
  {
  }

  lemma RememberedStep(g: Group, t: Turn)
    requires Inv(g) && Enabled(g, t)
    ensures Remembered(Step(g, t)) && Fair(Step(g, t))
  {
    var h := Step(g, t);
    forall c | 0 <= c < |h.conns| ensures Recalls(h, h.conns[c]) && Honest(h, h.conns[c]) {
      if c == |g.conns| {
        assert h.conns[c] == Conn(t.l, Created, 0, 0);
      } else if (t.Load? || t.Swap? || t.Serve? || t.Release? || t.Finish?) && c == t.c {
        OwnStep(g, t);
      } else {
        OthersStep(g, t, c);
      }
    }
  }

  lemma LoopStays(g: Group, t: Turn, l: nat)
    requires Inv(g) && Enabled(g, t) && l < |g.listeners| && l < |Step(g, t).listeners|
    requires !Step(g, t).listeners[l].looping
    ensures !Busy(Step(g, t), l)
  {
    hide Counted, Remembered;
    var h := Step(g, t);
    if t.Serve? { assert Busy(g, g.conns[t.c].listener); }
    if Busy(h, l) {
      var c :| 0 <= c < |h.conns| && h.conns[c].listener == l
        && (h.conns[c].stage.Created? || h.conns[c].stage.Loaded? || h.conns[c].stage.Added?);
      assert false;
    }
  }

  lemma ClosedStays(g: Group, t: Turn, l: nat)
    requires Inv(g) && Enabled(g, t) && l < |g.listeners| && l < |Step(g, t).listeners|
    requires Step(g, t).listeners[l].phase.Closed?
    ensures !Step(g, t).listeners[l].looping && Step(g, t).listeners[l].waiting == 0
  {
    hide Remembered, Fair;
    if g.listeners[l].phase.Closed? {
      NobodyWaited(g.conns, l);
      if t.Serve? { assert Busy(g, g.conns[t.c].listener); }
    }
  }

  lemma SettledStep(g: Group, t: Turn)
    requires Inv(g) && Enabled(g, t)
    ensures Settled(Step(g, t))
  {
    hide Counted, Remembered, Fair, Busy;
    var h := Step(g, t);
    forall l | 0 <= l < |h.listeners|
      ensures !h.listeners[l].looping ==> !Busy(h, l)
      ensures h.listeners[l].phase.Closed? ==> !h.listeners[l].looping && h.listeners[l].waiting == 0
    {
      if !h.listeners[l].looping { LoopStays(g, t, l); }
      if h.listeners[l].phase.Closed? { ClosedStays(g, t, l); }
    }
  }

  lemma {:induction false} Reaches(limits: seq<int>, turns: seq<Turn>)
    ensures Inv(Run(limits, turns)) && |Run(limits, turns).listeners| == |limits|
    ensures forall l | 0 <= l < |limits| :: Run(limits, turns).listeners[l].max == limits[l]
  {
    if turns != [] {
      Reaches(limits, turns[..|turns| - 1]);
      var g, t := Run(limits, turns[..|turns| - 1]), turns[|turns| - 1];
      if Enabled(g, t) {
        CountedStep(g, t);
        RememberedStep(g, t);
        SettledStep(g, t);
      }
    }
  }

  // -------------------------------------------------------------------- results

  /** The count is what was admitted and not released: the slots held now, and never negative. */
  lemma CountIsRight(limits: seq<int>, turns: seq<Turn>)
    ensures var g := Run(limits, turns); g.count == g.admitted - g.released == Slots(g.conns) && g.count >= 0
  {
    Reaches(limits, turns);
  }

  /** With a limit on every listener, the count never exceeds the largest. */
  lemma {:induction false} CountIsBounded(limits: seq<int>, turns: seq<Turn>, max: nat)
    requires forall l | 0 <= l < |limits| :: 0 < limits[l] <= max
    ensures 0 <= Run(limits, turns).count <= max
  {
    Reaches(limits, turns);
    if turns != [] {
      var before := turns[..|turns| - 1];
      CountIsBounded(limits, before, max);
      Reaches(limits, before);
      var g, t := Run(limits, before), turns[|turns| - 1];
      if t.Swap? && Enabled(g, t) {
        assert g.conns[t.c].stage.count < g.listeners[g.conns[t.c].listener].max;
      }
    }
  }

  /** A swap that fails was beaten by another: the count changed since it was read. */
  lemma FailedSwap(limits: seq<int>, turns: seq<Turn>, c: nat)
    requires Enabled(Run(limits, turns), Swap(c))
    ensures var g := Run(limits, turns);
      Step(g, Swap(c)).conns[c].stage.Created? ==> g.changes > g.conns[c].stage.changes
  {
    Reaches(limits, turns);
  }

  /** When Close returns, every connection its listener admitted has released its slot, exactly once. */
  lemma CloseWaits(limits: seq<int>, turns: seq<Turn>, l: nat)
    requires l < |limits| && l < |Run(limits, turns).listeners| && Run(limits, turns).listeners[l].phase.Closed?
    ensures var g := Run(limits, turns); forall c | 0 <= c < |g.conns| && g.conns[c].listener == l ::
      && (g.conns[c].stage.Full? || g.conns[c].stage.Over?)
      && g.conns[c].added == g.conns[c].removed <= 1
  {
    Reaches(limits, turns);
    var g := Run(limits, turns);
    NobodyWaited(g.conns, l);
    forall c | 0 <= c < |g.conns| && g.conns[c].listener == l ensures g.conns[c].stage.Full? || g.conns[c].stage.Over? {
      assert !Busy(g, l);
    }
  }

  // ------------------------------------------------------------------- progress

  function Proceed(g: Group, t: Turn): Group { if Enabled(g, t) then Step(g, t) else g }

  lemma RunOneMore(limits: seq<int>, turns: seq<Turn>, t: Turn)
    ensures Run(limits, turns + [t]) == Proceed(Run(limits, turns), t)
  {
    assert (turns + [t])[..|turns|] == turns;
  }

  lemma RunTakes(limits: seq<int>, turns: seq<Turn>, more: seq<Turn>, k: nat)
    requires k < |more|
    ensures Run(limits, turns + more[..k + 1]) == Proceed(Run(limits, turns + more[..k]), more[k])
  {
    assert turns + more[..k + 1] == turns + more[..k] + [more[k]];
    RunOneMore(limits, turns + more[..k], more[k]);
  }

  predicate AtLimit(g: Group, c: nat)
    requires At(g, c)
  {
    var max := g.listeners[g.conns[c].listener].max;
    max > 0 && g.count >= max
  }

  /** At some point of the turns, an attempt of c read a count at a positive limit. */
  predicate FoundFull(limits: seq<int>, turns: seq<Turn>, c: nat)
  {
    exists n | 0 <= n < |turns| :: FoundFullAt(limits, turns, c, n)
  }

  predicate FoundFullAt(limits: seq<int>, turns: seq<Turn>, c: nat, n: nat)
    requires n < |turns|
  {
    var g := Run(limits, turns[..n]);
    turns[n] == Load(c) && Enabled(g, Load(c)) && AtLimit(g, c)
  }

  lemma StepRefuses(g: Group, t: Turn, c: nat)
    requires Enabled(g, t) && c < |g.conns|
    ensures c < |Step(g, t).conns|
    ensures Step(g, t).conns[c].stage.Full? <==> g.conns[c].stage.Full? || (t == Load(c) && AtLimit(g, c))
  {
  }

  lemma FoundFullGrows(limits: seq<int>, turns: seq<Turn>, c: nat)
    requires turns != []
    ensures var n := |turns| - 1;
      FoundFull(limits, turns, c) <==> FoundFull(limits, turns[..n], c) || FoundFullAt(limits, turns, c, n)
  {
    hide Run, Enabled, AtLimit;
    var n := |turns| - 1;
    forall k | 0 <= k < n ensures FoundFullAt(limits, turns, c, k) <==> FoundFullAt(limits, turns[..n], c, k) {
      assert turns[..n][..k] == turns[..k];
    }
  }

  lemma NeverFoundFull(limits: seq<int>, c: nat)
    ensures !FoundFull(limits, [], c)
  {
  }

  /** A connection is refused exactly if an attempt of it read a count that was at the limit of its listener. */
  lemma {:induction false} RefusedIffFull(limits: seq<int>, turns: seq<Turn>, c: nat)
    ensures c < |Run(limits, turns).conns| ==> (Run(limits, turns).conns[c].stage.Full? <==> FoundFull(limits, turns, c))
    ensures c >= |Run(limits, turns).conns| ==> !FoundFull(limits, turns, c)
  {
    hide AtLimit, FoundFull;
    NeverFoundFull(limits, c);
    if turns != [] {
      var n := |turns| - 1;
      var g, t := Run(limits, turns[..n]), turns[n];
      RefusedIffFull(limits, turns[..n], c);
      FoundFullGrows(limits, turns, c);
      if c < |g.conns| && Enabled(g, t) {
        StepRefuses(g, t, c);
      }
    }
  }

  predicate NoRelease(turns: seq<Turn>)
  {
    forall k | 0 <= k < |turns| :: !turns[k].Release?
  }

  lemma StepCounts(g: Group, t: Turn, c: nat)
    requires Inv(g) && Enabled(g, t) && c < |g.conns| && !t.Release?
    ensures var h := Step(g, t);
      && c < |h.conns| && h.released == g.released && h.admitted >= g.admitted && h.changes >= g.changes
      && (h.conns[c].stage.Loaded? ==> h.conns[c].stage == g.conns[c].stage || h.conns[c].stage.changes == g.changes)
  {
  }

  /** What an attempt that began after the turns has read, it read after them. */
  lemma {:induction false} ReadSince(limits: seq<int>, turns: seq<Turn>, more: seq<Turn>, c: nat)
    requires NoRelease(more) && c < |Run(limits, turns).conns| && Run(limits, turns).conns[c].stage.Created?
    ensures var g, h := Run(limits, turns), Run(limits, turns + more);
      && h.released == g.released && h.admitted >= g.admitted && h.changes >= g.changes && c < |h.conns|
      && (h.conns[c].stage.Loaded? ==> h.conns[c].stage.changes >= g.changes)
  {
    if more == [] {
      assert turns + more == turns;
    } else {
      var n := |more| - 1;
      assert more[..n + 1] == more;
      ReadSince(limits, turns, more[..n], c);
      RunTakes(limits, turns, more, n);
      Reaches(limits, turns + more[..n]);
      var h := Run(limits, turns + more[..n]);
      if Enabled(h, more[n]) { StepCounts(h, more[n], c); }
    }
  }

  /**
   * The loop of add makes progress: however attempts contend, at the first compare-and-swap of any attempt that began
   * after the turns, some connection has been admitted since, be it this one or one that beat it, unless a slot was
   * released in between.
   */
  lemma SomeAttemptSucceeds(limits: seq<int>, turns: seq<Turn>, more: seq<Turn>, c: nat)
    requires NoRelease(more) && c < |Run(limits, turns).conns| && Run(limits, turns).conns[c].stage.Created?
    requires Enabled(Run(limits, turns + more), Swap(c))
    ensures Run(limits, turns + more + [Swap(c)]).admitted > Run(limits, turns).admitted
  {
    ReadSince(limits, turns, more, c);
    Reaches(limits, turns);
    Reaches(limits, turns + more);
    RunOneMore(limits, turns + more, Swap(c));
    var g := Run(limits, turns + more);
    assert Recalls(g, g.conns[c]);
  }
}
