/**
 * The IO of packets as it runs: a reader that consumes its buffer, or a writer that appends to one. One Marshal serves
 * both; what it does in either direction is what Dec and Enc say.
 */
module ShapeIO {
  import opened Wire
  import opened Varints
  import opened Fields
  import opened Shapes
  import opened ShapeReading
  import Nbt = NbtTree

  /** A value converted to a type keeps the bits of the type. */
  lemma OfSameWord(t: Int, x: int)
    ensures ToWord(t.bits, t.Of(x)) == ToWord(t.bits, x) && t.Of(t.Of(x)) == t.Of(x)
  {
    var p := Pow2(t.bits);
    OfHas(t, x);
    OfHas(t, t.Of(x));
    var u: int := ToWord(t.bits, x);
    SmallMod(u, p);
    ModShift(u - p, p);
  }

  lemma EncFormOf(form: Form, x: int)
    ensures EncForm(form, form.Type().Of(x)) == EncForm(form, x)
  {
    OfSameWord(form.Type(), x);
  }

  /** What a reader still has to do after some elements of a slice. */
  function After(read: seq<Val>, rest: Out<seq<Val>>): Out<seq<Val>>
  {
    match rest
    case Bad(e) => Bad(e)
    case Got(xs, left) => Got(read + xs, left)
  }

  lemma AfterOne(read: seq<Val>, x: Val, rest: Out<seq<Val>>)
    ensures After(read + [x], rest) == After(read, After([x], rest))
  {
    if rest.Got? { assert read + [x] + rest.v == read + ([x] + rest.v); }
  }

  /** What a writer still has to write after some bytes. */
  lemma ThenOne(before: Bytes, b: Bytes, rest: Encoded)
    ensures Nbt.Then(Wrote(before), Nbt.Then(Wrote(b), rest)) == Nbt.Then(Wrote(before + b), rest)
  {
    if rest.Wrote? { assert before + (b + rest.bytes) == before + b + rest.bytes; }
  }

  lemma AppendNothing(s: Bytes)
    ensures s + [] == s
  {
  }

  /**
   * What is left in the Go value behind a writer: the numbers that IntegerFunc stores back. The numbers of items are cast
   * through variables of their own or keep their width.
   */
  function Settle(s: Shape, v: Val): Val
    requires Fits(s, v)
    decreases v, s
  {
    match s
    case Num(form, go) => Integer(go.Of(form.Type().Of(v.n)))
    case Pair(a, b) => Both(Settle(a, v.a), Settle(b, v.b))
    case Slice(count, e) =>
      var n := count.Of(|v.xs|);
      Many(SettleSome(e, v.xs, n) + v.xs[n..])
    case Union(_, cases) => if 0 <= v.k < |cases| then Case(v.k, Settle(cases[v.k], v.v)) else v
    case Unless(_, blank, e) => if Absent(v, blank) then v else Settle(e, v)
    case Store => if 0 <= v.k < 7 then Case(v.k, Settle(STORE_CASES[v.k], v.v)) else v
    case _ => v
  }

  function SettleSome(e: Shape, xs: seq<Val>, n: nat): (r: seq<Val>)
    requires n <= |xs| && forall i | 0 <= i < |xs| :: Fits(e, xs[i])
    ensures |r| == n
    decreases xs, e, 1
  {
    if n == 0 then [] else [Settle(e, xs[0])] + SettleSome(e, xs[1..], n - 1)
  }

  lemma {:induction false} SettleNext(e: Shape, xs: seq<Val>, k: nat)
    requires k < |xs| && forall i | 0 <= i < |xs| :: Fits(e, xs[i])
    ensures SettleSome(e, xs, k + 1) == SettleSome(e, xs, k) + [Settle(e, xs[k])]
  {
    hide Settle, Fits;
    if k > 0 { SettleNext(e, xs[1..], k - 1); }
  }

  class IO {
    const c: Settings
    const reading: bool
    const buf: Buffer
    const scratch: array<byte>
    ghost var cut: bool

    constructor (c: Settings, reading: bool, data: Bytes)
      ensures Valid() && fresh(buf) && fresh(scratch) && this.c == c && this.reading == reading && View() == Start(data)
    {
      this.c, this.reading, this.cut := c, reading, false;
      buf := new Buffer(data);
      scratch := new byte[8](_ => 0);
      new;
      assert scratch[..] == ZEROES;
    }

    ghost predicate Valid() { scratch.Length == 8 }

    ghost function View(): (i: In)
      requires Valid()
      reads this, buf, scratch
      ensures i.Valid()
    {
      In(buf.data, scratch[..], cut)
    }

    /** A reader did what the specification says of its input. */
    ghost predicate Did<T>(spec: Out<T>, r: Read<T>)
      requires Valid()
      reads this, buf, scratch
    {
      match spec
      case Got(v, left) => r == Done(v) && View() == left
      case Bad(e) => r == Failed(e)
    }

    /** A writer appended what the specification says, and the value is then x. */
    ghost predicate Put<T>(before: Bytes, spec: Encoded, r: Read<T>, x: T)
      reads buf
    {
      match spec
      case Wrote(b) => r == Done(x) && buf.data == before + b
      case Refused(e) => r == Failed(e)
    }

    ghost predicate PutBytes<T>(before: Bytes, spec: Encoded, r: Read<T>)
      reads buf
    {
      match spec
      case Wrote(b) => r.Done? && buf.data == before + b
      case Refused(e) => r == Failed(e)
    }

    // ---------------------------------------------------------------- numbers

    method ReadFixed(size: nat) returns (r: Read<nat>)
      requires Valid() && 0 < size <= 8
      modifies this, buf, scratch
      ensures Did(ReadNumber(size, old(View())), r)
    {
      ghost var i := View();
      var n := buf.ReadInto(scratch, size);
      if n == None {
        return Failed(Overrun);
      }
      cut := cut || n.value < size;
      r := Done(LittleValue(scratch[..size]));
      assert scratch[..][..size] == scratch[..size];
    }

    method Number(form: Form, x: int) returns (r: Read<int>)
      requires Valid()
      modifies this, buf, scratch
      ensures reading ==> Did(DecForm(form, old(View())), r)
      ensures !reading ==> Put(old(buf.data), Wrote(EncForm(form, x)), r, x)
    {
      if reading {
        r := ReadIt(form);
      } else {
        WriteIt(form, x);
        r := Done(x);
      }
    }

    method ReadIt(form: Form) returns (r: Read<int>)
      requires Valid()
      modifies this, buf, scratch
      ensures Did(DecForm(form, old(View())), r)
    {
      match form
      case OneByte =>
        var b := buf.ReadByte();
        r := if b.Some? then Done(b.value) else Failed(Overrun);
      case Fixed(size, _) =>
        var u := ReadFixed(size.Bytes());
        r := if u.Done? then Done(form.Type().Of(u.value)) else Failed(u.error);
      case Var(w, signed) =>
        if signed {
          r := ReadVarintLoop(w, buf);
        } else {
          var u := ReadVaruintLoop(w, buf);
          r := if u.Done? then Done(u.value) else Failed(u.error);
        }
    }

    method WriteIt(form: Form, x: int)
      modifies buf
      ensures buf.data == old(buf.data) + EncForm(form, x)
    {
      match form
      case OneByte => buf.WriteByte(ToWord(8, x) % 0x100);
      case Fixed(size, _) => buf.Write(Fields.Number(size.Bytes(), ToWord(8 * size.Bytes(), x)));
      case Var(w, signed) =>
        OfHas(form.Type(), x);
        if signed { WriteVarint(w, buf, form.Type().Of(x)); } else { WriteVaruint(buf, ToWord(w.Bits(), x)); }
    }

    /** IntegerFunc: the field converted to the wire type, marshalled, and converted back. Writing converts it too. */
    method IntegerFunc(form: Form, go: Int, x: int) returns (r: Read<int>)
      requires Valid()
      modifies this, buf, scratch
      ensures reading ==>
        Did(match DecForm(form, old(View())) case Bad(e) => Bad(e) case Got(n, left) => Got(go.Of(n), left), r)
      ensures !reading ==>
        Put(old(buf.data), Wrote(EncForm(form, x)), r, go.Of(form.Type().Of(x)))
    {
      var w := form.Type().Of(x);
      EncFormOf(form, x);
      r := Number(form, w);
      if reading {
        r := if r.Done? then Done(go.Of(r.value)) else r;
      } else {
        r := Done(go.Of(w));
      }
    }

    // ---------------------------------------------------------------- strings

    method Rest(n: int) returns (r: Read<Bytes>)
      requires Valid()
      modifies buf
      ensures Did(ReadBytes(n, old(View())), r)
    {
      if n < 0 || n > |buf.data| {
        return Failed(Overrun);
      }
      r := buf.ReadFull(n);
    }

    method String(s: Bytes) returns (r: Read<Bytes>)
      requires Valid()
      modifies this, buf, scratch
      ensures reading ==> Did(ReadText(old(View())), r)
      ensures !reading ==> Put(old(buf.data), Wrote(Text(s)), r, s)
    {
      if !reading {
        WriteVaruint(buf, |s|);
        buf.Write(s);
        return Done(s);
      }
      var n := ReadVaruintLoop(W32, buf);
      if n.Failed? {
        return Failed(n.error);
      }
      if n.value > 0x7FFF_FFFF {
        return Failed(StringTooLong);
      }
      r := Rest(n.value);
    }

    method StringUTF(s: Bytes) returns (r: Read<Bytes>)
      requires Valid()
      modifies this, buf, scratch
      ensures reading ==> Did(ReadShortText(old(View())), r)
      ensures !reading ==> Put(old(buf.data), Wrote(ShortText(s)), r, s)
    {
      if !reading {
        OfSameWord(U16, |s|);
        assert EncForm(Fixed(Two, true), |s|) == Fields.Number(2, U16.Of(|s|));
        WriteIt(Fixed(Two, true), |s|);
        buf.Write(s);
        return Done(s);
      }
      var n := ReadFixed(2);
      if n.Failed? {
        return Failed(n.error);
      }
      r := Rest(I16.Of(n.value));
    }

    // ------------------------------------------------------- compounds and tags

    method NBT(network: bool, es: seq<Nbt.Entry>) returns (r: Read<seq<Nbt.Entry>>)
      requires Valid()
      modifies buf
      ensures var f := if network then c.Network() else c.Nested();
        && (reading ==> Did(DecCompound(f, old(View())), r))
        && (!reading ==> Put(old(buf.data), Nbt.Encode(f, Nbt.Struct(es)), r, es))
    {
      var f := if network then c.Network() else c.Nested();
      if !reading {
        match Nbt.Encode(f, Nbt.Struct(es)) {
          case Wrote(b) => buf.Write(b); return Done(es);
          case Refused(e) => return Failed(e);
        }
      }
      var i := In(buf.data, [0, 0, 0, 0, 0, 0, 0, 0], false);
      match DecCompound(f, i)
      case Bad(e) => r := Failed(e);
      case Got(read, left) =>
        DecCompoundIgnores(f, i, View());
        buf.off, buf.data := buf.off + |buf.data| - |left.data|, left.data;
        r := Done(read);
    }

    /** The mark of a union's case, the same way round for reader and writer. */
    method Tag(tag: Tagging, n: nat, k: nat) returns (r: Read<nat>)
      requires Valid() && (tag.Boolean? ==> k <= 1)
      modifies this, buf, scratch
      ensures reading ==> Did(ReadTag(tag, n, old(View())), r)
      ensures !reading ==> Put(old(buf.data), Wrote(TagBytes(tag, k)), r, k)
    {
      match tag
      case Boolean =>
        var b := Byte(k);
        if b.Failed? { return Failed(b.error); }
        r := Done(if b.value == 0 then 0 else 1);
      case Word =>
        if !reading {
          WriteIt(Fixed(Four, true), k);
          return Done(k);
        }
        var u := ReadFixed(4);
        if u.Failed? { return Failed(u.error); }
        r := if 0 <= I32.Of(u.value) < n then Done(I32.Of(u.value)) else Failed(UnknownOption);
      case _ => r := PairedTag(tag, n, k);
    }

    method Byte(k: nat) returns (r: Read<byte>)
      requires Valid()
      modifies buf
      ensures !reading ==> Put(old(buf.data), Wrote([k % 0x100]), r, k % 0x100)
      ensures reading ==> var i := old(View());
        Did(if i.data == [] then Bad(Overrun) else Got(i.data[0], i.At(i.data[1..])), r)
    {
      if !reading {
        buf.WriteByte(k % 0x100);
        return Done(k % 0x100);
      }
      var b := buf.ReadByte();
      r := if b.Some? then Done(b.value) else Failed(Overrun);
    }

    method PairedTag(tag: Tagging, n: nat, k: nat) returns (r: Read<nat>)
      requires Valid() && (tag.Echoed? || tag.Loose? || tag.Action?)
      modifies this, buf, scratch
      ensures reading ==> Did(ReadTag(tag, n, old(View())), r)
      ensures !reading ==> Put(old(buf.data), Wrote(TagBytes(tag, k)), r, k)
    {
      if !reading {
        WriteVaruint(buf, k);
        buf.WriteByte(LegacyByte(tag, k));
        return Done(k);
      }
      var u := ReadVaruintLoop(W32, buf);
      if u.Failed? { return Failed(u.error); }
      var b := buf.ReadByte();
      if b == None { return Failed(Overrun); }
      if tag.Echoed? && b.value != u.value { return Failed(InvalidValue); }
      r := if u.value >= n then Failed(UnknownOption) else Done(u.value);
    }

    // ------------------------------------------------------------------ Marshal

    /**
     * One Marshal for both directions: a reader takes the value Dec says from its input, a writer appends the bytes Enc
     * says. A reader does not look at x.
     */
    method Marshal(s: Shape, x: Val) returns (r: Read<Val>)
      requires Valid() && (!reading ==> Fits(s, x))
      modifies this, buf, scratch
      ensures reading ==> Did(Dec(c, s, old(View())), r)
      ensures !reading ==> Put(old(buf.data), Enc(c, s, x), r, Settle(s, x))
      decreases if reading then |buf.data| else 0, if reading then Unit else x, s, 1
    {
      match s
      case Nothing => r := Done(Unit); AppendNothing(buf.data);
      case Num(form, go) =>
        var n := IntegerFunc(form, go, if reading then 0 else x.n);
        r := if n.Done? then Done(Integer(n.value)) else Failed(n.error);
      case Txt =>
        var t := String(if reading then [] else x.s);
        r := if t.Done? then Done(Str(t.value)) else Failed(t.error);
      case ShortTxt =>
        var t := StringUTF(if reading then [] else x.s);
        r := if t.Done? then Done(Str(t.value)) else Failed(t.error);
      case Pair(_, _) => r := InTurn(s, x);
      case Slice(_, _) => r := FuncSlice(s, x);
      case Union(_, _) => r := Cases(s, x);
      case Unless(_, _, _) => r := Optionally(s, x);
      case Store => r := DataStoreValue(x);
      case Compound =>
        var es := NBT(true, if reading then [] else x.entries);
        r := if es.Done? then Done(Tags(es.value)) else Failed(es.error);
      case Item(_, _, _) => r := ItemStack(s, x);
    }

    method InTurn(s: Shape, x: Val) returns (r: Read<Val>)
      requires Valid() && s.Pair? && (!reading ==> Fits(s, x))
      modifies this, buf, scratch
      ensures reading ==> Did(Dec(c, s, old(View())), r)
      ensures !reading ==> Put(old(buf.data), Enc(c, s, x), r, Settle(s, x))
      decreases if reading then |buf.data| else 0, if reading then Unit else x, s, 0
    {
      ghost var before := buf.data;
      var a := Marshal(s.first, if reading then Unit else x.a);
      if a.Failed? { return a; }
      var b := Marshal(s.second, if reading then Unit else x.b);
      if b.Failed? { return b; }
      r := Done(Both(a.value, b.value));
      if !reading {
        assert before + Enc(c, s.first, x.a).bytes + Enc(c, s.second, x.b).bytes
            == before + (Enc(c, s.first, x.a).bytes + Enc(c, s.second, x.b).bytes);
      }
    }

    method FuncSlice(s: Shape, x: Val) returns (r: Read<Val>)
      requires Valid() && s.Slice? && (!reading ==> Fits(s, x))
      modifies this, buf, scratch
      ensures reading ==> Did(Dec(c, s, old(View())), r)
      ensures !reading ==> Put(old(buf.data), Enc(c, s, x), r, Settle(s, x))
      decreases if reading then |buf.data| else 0, if reading then Unit else x, s, 0
    {
      ghost var before := buf.data;
      var count := if reading then 0 else s.count.Of(|x.xs|);
      if !reading { EncFormOf(s.count.Form(), |x.xs|); }
      var n := Number(s.count.Form(), count);
      if n.Failed? { return Failed(n.error); }
      if reading {
        count := n.value;
        if TooMany(c, s.count, count, |buf.data|) { return Failed(SliceTooLong); }
      }
      var xs := SliceOfLen(s.element, count, if reading then [] else x.xs);
      if xs.Failed? { return Failed(xs.error); }
      r := Done(Many(if reading then xs.value else xs.value + x.xs[count..]));
      if !reading {
        Joined(before, EncForm(s.count.Form(), |x.xs|), EncSome(c, s.element, x.xs, count));
      }
    }

    method SliceOfLen(e: Shape, n: nat, xs: seq<Val>) returns (r: Read<seq<Val>>)
      requires Valid() && (!reading ==> n <= |xs| && forall k | 0 <= k < |xs| :: Fits(e, xs[k]))
      modifies this, buf, scratch
      ensures reading ==> Did(DecMany(c, e, n, old(View())), r)
      ensures !reading ==> Put(old(buf.data), EncSome(c, e, xs, n), r, SettleSome(e, xs, n))
      decreases if reading then |buf.data| else 0, if reading then Unit else Many(xs), e, 2
    {
      hide Dec, Enc, Fits, Settle;
      ghost var start, before := View(), buf.data;
      var read: seq<Val> := [];
      AfterNothing(DecMany(c, e, n, start));
      assert xs[0..] == xs;
      for k := 0 to n
        invariant reading ==> |buf.data| <= |start.data|
        invariant reading ==> DecMany(c, e, n, start) == After(read, DecMany(c, e, n - k, View()))
        invariant !reading ==> read == SettleSome(e, xs, k)
        invariant !reading ==>
          Nbt.Then(Wrote(before), EncSome(c, e, xs, n)) == Nbt.Then(Wrote(buf.data), EncSome(c, e, xs[k..], n - k))
      {
        ghost var now := buf.data;
        var x := Marshal(e, if reading then Unit else xs[k]);
        if !reading { assert xs[k..][1..] == xs[k + 1..]; }
        if x.Failed? { return Failed(x.error); }
        if reading {
          AfterOne(read, x.value, DecMany(c, e, n - k - 1, View()));
        } else {
          ThenOne(now, Enc(c, e, xs[k]).bytes, EncSome(c, e, xs[k + 1..], n - k - 1));
          SettleNext(e, xs, k);
        }
        read := read + [x.value];
      }
      AppendNothing(buf.data);
      r := Done(read);
      assert reading ==> read + [] == read;
    }

    method Cases(s: Shape, x: Val) returns (r: Read<Val>)
      requires Valid() && s.Union? && (!reading ==> Fits(s, x))
      modifies this, buf, scratch
      ensures reading ==> Did(Dec(c, s, old(View())), r)
      ensures !reading ==> Put(old(buf.data), Enc(c, s, x), r, Settle(s, x))
      decreases if reading then |buf.data| else 0, if reading then Unit else x, s, 0
    {
      ghost var before := buf.data;
      if !reading && !(0 <= x.k < |s.cases|) {
        return Failed(UnknownOption);
      }
      var k := Tag(s.tag, |s.cases|, if reading then 0 else x.k);
      if k.Failed? { return Failed(k.error); }
      if reading {
        if k.value >= |s.cases| { return Failed(UnknownOption); }
        var v := Marshal(s.cases[k.value], Unit);
        r := if v.Done? then Done(Case(k.value, v.value)) else v;
      } else {
        var v := Marshal(s.cases[x.k], x.v);
        r := if v.Done? then Done(Case(x.k, v.value)) else v;
        Joined(before, TagBytes(s.tag, x.k), Enc(c, s.cases[x.k], x.v));
      }
    }

    method DataStoreValue(x: Val) returns (r: Read<Val>)
      requires Valid() && (!reading ==> Fits(Store, x))
      modifies this, buf, scratch
      ensures reading ==> Did(Dec(c, Store, old(View())), r)
      ensures !reading ==> Put(old(buf.data), Enc(c, Store, x), r, Settle(Store, x))
      decreases if reading then |buf.data| else 0, if reading then Unit else x, Store, 0
    {
      ghost var before := buf.data;
      if !reading && !(0 <= x.k < 7) {
        return Failed(UnknownOption);
      }
      var k := Tag(Word, 7, if reading then 0 else x.k);
      if k.Failed? { return Failed(k.error); }
      if reading {
        var v := Marshal(STORE_CASES[k.value], Unit);
        r := if v.Done? then Done(Case(k.value, v.value)) else v;
      } else {
        var v := Marshal(STORE_CASES[x.k], x.v);
        r := if v.Done? then Done(Case(x.k, v.value)) else v;
        Joined(before, TagBytes(Word, x.k), Enc(c, STORE_CASES[x.k], x.v));
      }
    }

    method Optionally(s: Shape, x: Val) returns (r: Read<Val>)
      requires Valid() && s.Unless? && (!reading ==> Fits(s, x))
      modifies this, buf, scratch
      ensures reading ==> Did(Dec(c, s, old(View())), r)
      ensures !reading ==> Put(old(buf.data), Enc(c, s, x), r, Settle(s, x))
      decreases if reading then |buf.data| else 0, if reading then Unit else x, s, 0
    {
      ghost var before := buf.data;
      var there := if reading || Absent(x, s.blank) then 0 else 1;
      var k := Tag(s.tag, 2, there);
      if k.Failed? { return Failed(k.error); }
      if (if reading then k.value else there) == 0 {
        return Done(if reading then s.blank else x);
      }
      r := Marshal(s.element, if reading then Unit else x);
      if !reading {
        Joined(before, TagBytes(s.tag, 1), Enc(c, s.element, x));
      }
    }

    // -------------------------------------------------------------------- items

    method ItemStack(s: Shape, x: Val) returns (r: Read<Val>)
      requires Valid() && s.Item? && (!reading ==> Fits(s, x))
      modifies this, buf, scratch
      ensures reading ==> Did(Dec(c, s, old(View())), r)
      ensures !reading ==> Put(old(buf.data), Enc(c, s, x), r, Settle(s, x))
      decreases if reading then |buf.data| else 0, if reading then Unit else x, s, 0
    {
      ghost var before := buf.data;
      var front := Marshal(s.head, if reading then Unit else x.front);
      if front.Failed? { return front; }
      if reading {
        r := ReadUserData(s.key, s.lists, front.value);
      } else {
        r := WriteUserData(s.key, s.lists, x);
        Joined(before, Enc(c, s.head, x.front).bytes,
               if Present(s.key, x.front) then Boxed(EncUser(c, s.key, s.lists, x)) else Wrote(Text([])));
      }
    }

    /** Reader.itemUserData: the nested buffer has a reader of its own. */
    method ReadUserData(key: ItemKey, lists: Shape, front: Val) returns (r: Read<Val>)
      requires Valid() && reading
      modifies this, buf, scratch
      ensures Did(DecBox(c, key, lists, front, old(View())), r)
      decreases if reading then |buf.data| else 0, Unit, lists, 4
    {
      hide DecUser, ReadText;
      TextShorter(View());
      var extra := String([]);
      if extra.Failed? { return Failed(extra.error); }
      if extra.value == [] {
        return Done(Stack(front, [], NO_PERMITS, 0));
      }
      var nested := new IO(c, true, extra.value);
      r := nested.Parts(key, lists, front, Unit);
    }

    /** Writer.itemUserData: nothing but a zero length where there is no item, or else a nested buffer behind its length. */
    method WriteUserData(key: ItemKey, lists: Shape, x: Val) returns (r: Read<Val>)
      requires Valid() && !reading && x.Stack? && Fits(lists, x.permits)
      modifies this, buf, scratch
      ensures Put(old(buf.data), if Present(key, x.front) then Boxed(EncUser(c, key, lists, x)) else Wrote(Text([])), r, x)
      decreases 0, x, lists, 4
    {
      hide EncUser;
      if !Present(key, x.front) {
        var none := String([]);
        return Done(x);
      }
      var nested := new IO(c, false, []);
      r := nested.Parts(key, lists, x.front, x);
      if r.Failed? { return r; }
      r := Done(x);
      assert [] + EncUser(c, key, lists, x).bytes == EncUser(c, key, lists, x).bytes;
      var extra := String(nested.buf.data);
    }

    method Parts(key: ItemKey, lists: Shape, front: Val, x: Val) returns (r: Read<Val>)
      requires Valid() && (!reading ==> x.Stack? && x.front == front && Fits(lists, x.permits))
      modifies this, buf, scratch
      ensures reading ==> Did(DecUser(c, key, lists, front, old(View())), r)
      ensures !reading ==> PutBytes(old(buf.data), EncUser(c, key, lists, x), r)
      decreases if reading then |buf.data| else 0, if reading then Unit else x, lists, 3
    {
      ghost var before := buf.data;
      var es := Nested(if reading then [] else x.nbt);
      if es.Failed? { return Failed(es.error); }
      ghost var between := buf.data;
      r := Permits(key, lists, front, es.value, x);
      if !reading {
        Joined(before, EncNested(c, x.nbt).bytes, Nbt.Then(Enc(c, lists, x.permits), EncTick(c, key, x)));
      }
    }

    method Permits(key: ItemKey, lists: Shape, front: Val, es: seq<Nbt.Entry>, x: Val) returns (r: Read<Val>)
      requires Valid() && (!reading ==> x.Stack? && x.front == front && Fits(lists, x.permits))
      modifies this, buf, scratch
      ensures reading ==> Did(DecPermits(c, key, lists, front, es, old(View())), r)
      ensures !reading ==> PutBytes(old(buf.data), Nbt.Then(Enc(c, lists, x.permits), EncTick(c, key, x)), r)
      decreases if reading then |buf.data| else 0, if reading then Unit else x, lists, 2
    {
      hide Enc, Dec, Fits;
      ghost var before := buf.data;
      var permits := Marshal(lists, if reading then Unit else x.permits);
      if permits.Failed? { return permits; }
      ghost var between := buf.data;
      var tick := Done(0);
      if c.Shielded(key, front) {
        tick := Number(TICK, if reading then 0 else x.tick);
        if tick.Failed? { return Failed(tick.error); }
      } else {
        AppendNothing(between);
      }
      r := Done(Stack(front, es, permits.value, tick.value));
      if !reading {
        Joined(before, Enc(c, lists, x.permits).bytes, EncTick(c, key, x));
      }
    }

    method Nested(es: seq<Nbt.Entry>) returns (r: Read<seq<Nbt.Entry>>)
      requires Valid()
      modifies this, buf, scratch
      ensures reading ==> Did(DecNested(c, old(View())), r)
      ensures !reading ==> Put(old(buf.data), EncNested(c, es), r, es)
    {
      hide Nbt.Encode, DecCompound;
      ghost var before := buf.data;
      var n := Number(Fixed(Two, true), if es == [] then 0 else -1);
      if n.Failed? { return Failed(n.error); }
      if (if reading then n.value == 0 else es == []) {
        return Done([]);
      }
      if !reading || n.value == -1 {
        var version := Number(OneByte, 1);
        if version.Failed? { return Failed(version.error); }
        if reading && version.value != 1 { return Failed(UnknownOption); }
      }
      ghost var between := buf.data;
      r := NBT(false, es);
      if !reading {
        assert EncForm(OneByte, 1) == [1] by { Pow2Values(); }
        assert between == before + (EncForm(Fixed(Two, true), -1) + [1]);
        Joined(before, EncForm(Fixed(Two, true), -1) + [1], Nbt.Encode(c.Nested(), Nbt.Struct(es)));
      }
    }
  }

  lemma AfterNothing(rest: Out<seq<Val>>)
    ensures After([], rest) == rest
  {
    if rest.Got? { assert [] + rest.v == rest.v; }
  }

  /** Two writes in a row. */
  lemma Joined(before: Bytes, b: Bytes, rest: Encoded)
    ensures rest.Wrote? ==> before + Nbt.Then(Wrote(b), rest).bytes == before + b + rest.bytes
  {
  }
}
