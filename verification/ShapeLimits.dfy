/** When a reader accepts what was written. */
module ShapeLimits {
  import opened Wire
  import opened Varints
  import opened Fields
  import opened Shapes
  import opened ShapeReading
  import opened ShapeRoundTrip
  import Nbt = NbtTree
  import NbtRoundTrip

  /** Every value takes at least one byte. */
  predicate Sized(s: Shape)
  {
    match s
    case Nothing => false
    case Pair(a, b) => Sized(a) || Sized(b)
    case _ => true
  }

  /** Every element of every slice takes at least one byte. */
  predicate Grounded(s: Shape)
  {
    match s
    case Pair(a, b) => Grounded(a) && Grounded(b)
    case Slice(_, e) => Sized(e) && Grounded(e)
    case Union(_, cases) => forall k | 0 <= k < |cases| :: Grounded(cases[k])
    case Unless(_, _, e) => Grounded(e)
    case Item(_, head, lists) => Grounded(head) && Grounded(lists)
    case _ => true
  }

  /**
   * What a writer has to keep to: at most 1024 elements where the reader's limits are on, compounds the NBT decoder gets
   * through, and no head that turns into a shield's on the wire.
   */
  predicate Within(c: Settings, s: Shape, v: Val)
    requires Fits(s, v)
    decreases v, s
  {
    match s
    case Pair(a, b) => Within(c, a, v.a) && Within(c, b, v.b)
    case Slice(count, e) =>
      var n := count.Of(|v.xs|);
      (c.limits && count != UncheckedCount ==> n <= 1024) && WithinSome(c, e, v.xs, n)
    case Union(_, cases) => 0 <= v.k < |cases| ==> Within(c, cases[v.k], v.v)
    case Unless(_, blank, e) => Absent(v, blank) || Within(c, e, v)
    case Store => 0 <= v.k < 7 ==> Within(c, STORE_CASES[v.k], v.v)
    case Compound => Stops(c.Network(), v.entries) == None
    case Item(key, head, lists) =>
      && Within(c, head, v.front)
      && (Present(key, v.front) ==>
            && (v.nbt == [] || Stops(c.Nested(), v.nbt) == None)
            && Within(c, lists, v.permits)
            && ShieldMistaken(c, key, Canon(c, head, v.front), v.front) == None)
    case _ => true
  }

  predicate WithinSome(c: Settings, e: Shape, xs: seq<Val>, n: nat)
    requires n <= |xs| && forall i | 0 <= i < |xs| :: Fits(e, xs[i])
    decreases xs, e, 1
  {
    n > 0 ==> Within(c, e, xs[0]) && WithinSome(c, e, xs[1..], n - 1)
  }

  lemma {:induction false} SizedTakesSpace(c: Settings, s: Shape, v: Val)
    requires Sized(s) && Fits(s, v) && Enc(c, s, v).Wrote?
    ensures |Enc(c, s, v).bytes| > 0
    decreases s
  {
    match s
    case Pair(a, b) => if Sized(a) { SizedTakesSpace(c, a, v.a); } else { SizedTakesSpace(c, b, v.b); }
    case _ =>
  }

  lemma {:induction false} SomeTakeSpace(c: Settings, e: Shape, xs: seq<Val>, n: nat)
    requires Sized(e) && n <= |xs| && (forall i | 0 <= i < |xs| :: Fits(e, xs[i])) && EncSome(c, e, xs, n).Wrote?
    ensures |EncSome(c, e, xs, n).bytes| >= n
  {
    if n > 0 {
      SizedTakesSpace(c, e, xs[0]);
      SomeTakeSpace(c, e, xs[1..], n - 1);
    }
  }

  lemma StoreIsGrounded(k: nat)
    requires k < 7
    ensures Grounded(STORE_CASES[k])
  {
  }

  /**
   * Where every slice element takes at least one byte, the verdict does not depend on what follows: what was written is
   * read back exactly when the writer kept to Within. SliceLength refuses no encoding for the bytes that are left.
   */
  lemma {:induction false} AcceptedIffWithin(c: Settings, s: Shape, v: Val, after: nat)
    requires Grounded(s) && Fits(s, v) && Enc(c, s, v).Wrote?
    ensures Verdict(c, s, v, after) == None <==> Within(c, s, v)
    decreases v, s, 0
  {
    hide EncUser, Stops, ShieldMistaken, Boxed;
    match s
    case Pair(a, b) =>
      AcceptedIffWithin(c, a, v.a, Length(Enc(c, b, v.b)) + after);
      AcceptedIffWithin(c, b, v.b, after);
    case Slice(count, e) =>
      SomeTakeSpace(c, e, v.xs, count.Of(|v.xs|));
      SomeAccepted(c, e, v.xs, count.Of(|v.xs|), after);
    case Union(_, cases) => AcceptedIffWithin(c, cases[v.k], v.v, after);
    case Unless(_, blank, e) => if !Absent(v, blank) { AcceptedIffWithin(c, e, v, after); }
    case Store =>
      StoreIsGrounded(v.k);
      AcceptedIffWithin(c, STORE_CASES[v.k], v.v, after);
    case Item(_, _, _) => ItemAccepted(c, s, v, after);
    case _ =>
  }

  lemma PermitsWritten(c: Settings, key: ItemKey, lists: Shape, v: Val)
    requires v.Stack? && Fits(lists, v.permits) && Boxed(EncUser(c, key, lists, v)).Wrote?
    ensures Enc(c, lists, v.permits).Wrote?
  {
  }

  lemma {:induction false} ItemAccepted(c: Settings, s: Shape, v: Val, after: nat)
    requires s.Item? && Grounded(s) && Fits(s, v) && Enc(c, s, v).Wrote?
    ensures Verdict(c, s, v, after) == None <==> Within(c, s, v)
    decreases v, s.head, s.lists, 1
  {
    hide EncTick, Stops, EncUser, ShortText, Text, Boxed, Canon, Pow2, Present;
    if Present(s.key, v.front) {
      PermitsWritten(c, s.key, s.lists, v);
      AcceptedIffWithin(c, s.head, v.front, Length(Boxed(EncUser(c, s.key, s.lists, v))) + after);
      AcceptedIffWithin(c, s.lists, v.permits, Length(EncTick(c, s.key, v)));
    } else {
      AcceptedIffWithin(c, s.head, v.front, |Text([])| + after);
    }
  }

  lemma {:induction false} SomeAccepted(c: Settings, e: Shape, xs: seq<Val>, n: nat, after: nat)
    requires Grounded(e) && n <= |xs| && (forall i | 0 <= i < |xs| :: Fits(e, xs[i])) && EncSome(c, e, xs, n).Wrote?
    ensures VerdictSome(c, e, xs, n, after) == None <==> WithinSome(c, e, xs, n)
    decreases xs, e, 1
  {
    hide Verdict, Within, Enc, Fits, Grounded;
    if n > 0 {
      AcceptedIffWithin(c, e, xs[0], Length(EncSome(c, e, xs[1..], n - 1)) + after);
      SomeAccepted(c, e, xs[1..], n - 1, after);
    }
  }

  /** Round trip of every grounded shape: the value comes back if and only if the writer kept to Within. */
  lemma GroundedRoundTrip(c: Settings, s: Shape, v: Val, t: Bytes, i: In)
    requires Grounded(s) && Fits(s, v) && Input(Enc(c, s, v), t, i)
    ensures Within(c, s, v) ==> Back(Dec(c, s, i), None, Canon(c, s, v), t, i)
    ensures !Within(c, s, v) ==> Dec(c, s, i).Bad?
  {
    ReadsBack(c, s, v, t, i);
    AcceptedIffWithin(c, s, v, |t|);
  }

  function Units(n: nat): (xs: seq<Val>)
    ensures |xs| == n
    ensures forall i | 0 <= i < n :: xs[i] == Unit
  {
    if n == 0 then [] else [Unit] + Units(n - 1)
  }

  /** Elements of no bytes are refused as soon as fewer bytes follow the slice than it has elements. */
  lemma EmptyElements(c: Settings, n: u32, after: nat)
    ensures var s, v := Slice(VarCount, Nothing), Many(Units(n));
      Fits(s, v) && (Verdict(c, s, v, after) == None <==> n <= after && (c.limits ==> n <= 1024))
  {
    Pow2Values();
    SmallMod(n, Pow2(32));
    EmptyLength(c, n, after);
  }

  lemma {:induction false} EmptyLength(c: Settings, n: nat, after: nat)
    ensures EncSome(c, Nothing, Units(n), n) == Wrote([]) && VerdictSome(c, Nothing, Units(n), n, after) == None
  {
    if n > 0 {
      assert Units(n)[1..] == Units(n - 1);
      EmptyLength(c, n - 1, after);
    }
  }
}
