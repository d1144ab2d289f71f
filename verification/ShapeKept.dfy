/** What comes back unchanged: where reading what was written is the identity. */
module ShapeKept {
  import opened Wire
  import opened Fields
  import opened Shapes
  import opened ShapeRoundTrip
  import opened ShapeReading
  import opened ShapeLimits
  import NbtRoundTrip

  /** A number fits the form it is written in, or keeps all its bits in it. */
  predicate NumberKept(form: Form, go: Int, n: int)
  {
    form.Type().Has(n) || form.Type().bits == go.bits
  }

  /**
   * A value nothing is lost of: its numbers fit the wire, its slices their counts, what is left out is blank, and
   * compounds are as NBT reads them.
   */
  predicate Lossless(c: Settings, s: Shape, v: Val)
    requires Fits(s, v)
    decreases v, s
  {
    match s
    case Num(form, go) => NumberKept(form, go, v.n)
    case Pair(a, b) => Lossless(c, a, v.a) && Lossless(c, b, v.b)
    case Slice(count, e) => count.Of(|v.xs|) == |v.xs| && forall i | 0 <= i < |v.xs| :: Lossless(c, e, v.xs[i])
    case Union(_, cases) => 0 <= v.k < |cases| ==> Lossless(c, cases[v.k], v.v)
    case Unless(_, blank, e) => if Absent(v, blank) then v == blank else Lossless(c, e, v)
    case Store => 0 <= v.k < 7 ==> Lossless(c, STORE_CASES[v.k], v.v)
    case Compound => NbtRoundTrip.RawEntries(v.entries) == v.entries
    case Item(key, head, lists) =>
      && Lossless(c, head, v.front)
      && if Present(key, v.front) then
           && NbtRoundTrip.RawEntries(v.nbt) == v.nbt && Lossless(c, lists, v.permits)
           && (v.tick == 0 || c.Shielded(key, v.front))
         else v.nbt == [] && v.permits == NO_PERMITS && v.tick == 0
    case _ => true
  }

  lemma NumberIsKept(form: Form, go: Int, n: int)
    requires go.Has(n) && NumberKept(form, go, n)
    ensures go.Of(form.Type().Of(n)) == n
  {
    if form.Type().Has(n) {
      OfHas(form.Type(), n);
      OfHas(go, n);
    } else {
      SameWidthKeeps(go, form.Type(), n);
    }
  }

  /** Where every element comes back as it is, so do the first n of them. */
  lemma {:induction false} SomeKept(c: Settings, e: Shape, xs: seq<Val>, n: nat)
    requires n <= |xs| && forall i | 0 <= i < |xs| :: Fits(e, xs[i])
    requires forall i | 0 <= i < |xs| :: Canon(c, e, xs[i]) == xs[i]
    ensures CanonSome(c, e, xs, n) == xs[..n]
  {
    hide Canon, Fits;
    if n > 0 {
      SomeKept(c, e, xs[1..], n - 1);
      assert xs[..n] == [xs[0]] + xs[1..][..n - 1];
    }
  }

  lemma {:induction false} SomeWithin(c: Settings, e: Shape, xs: seq<Val>, n: nat)
    requires n <= |xs| && forall i | 0 <= i < |xs| :: Fits(e, xs[i])
    requires forall i | 0 <= i < |xs| :: Within(c, e, xs[i])
    ensures WithinSome(c, e, xs, n)
  {
    hide Within, Fits;
    if n > 0 {
      SomeWithin(c, e, xs[1..], n - 1);
    }
  }

  lemma {:induction false} LosslessIsKept(c: Settings, s: Shape, v: Val)
    requires Fits(s, v) && Lossless(c, s, v)
    ensures Canon(c, s, v) == v
    decreases v, s
  {
    match s
    case Num(form, go) => NumberIsKept(form, go, v.n);
    case Pair(a, b) =>
      LosslessIsKept(c, a, v.a);
      LosslessIsKept(c, b, v.b);
    case Slice(count, e) =>
      forall i | 0 <= i < |v.xs| ensures Canon(c, e, v.xs[i]) == v.xs[i] { LosslessIsKept(c, e, v.xs[i]); }
      SomeKept(c, e, v.xs, |v.xs|);
      assert v.xs[..|v.xs|] == v.xs;
    case Union(_, cases) => if 0 <= v.k < |cases| { LosslessIsKept(c, cases[v.k], v.v); }
    case Unless(_, blank, e) => if !Absent(v, blank) { LosslessIsKept(c, e, v); }
    case Store => if 0 <= v.k < 7 { LosslessIsKept(c, STORE_CASES[v.k], v.v); }
    case Item(key, head, lists) =>
      LosslessIsKept(c, head, v.front);
      if Present(key, v.front) { LosslessIsKept(c, lists, v.permits); }
    case _ =>
  }

  /** A lossless value of a grounded shape is read back as itself, if and only if the writer kept to Within. */
  lemma Identity(c: Settings, s: Shape, v: Val, t: Bytes, i: In)
    requires Grounded(s) && Fits(s, v) && Lossless(c, s, v) && Input(Enc(c, s, v), t, i)
    ensures Within(c, s, v) ==> Back(Dec(c, s, i), None, v, t, i)
    ensures !Within(c, s, v) ==> Dec(c, s, i).Bad?
  {
    GroundedRoundTrip(c, s, v, t, i);
    LosslessIsKept(c, s, v);
  }
}
