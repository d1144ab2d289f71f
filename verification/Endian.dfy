/**
 * The fixed-width array readers of NBT. They take all bytes of an array at once, reverse every element in place when
 * the byte order of the format is not that of the machine, and reinterpret the memory as machine words. The two host
 * builds mirror each other.
 */
module Endian {
  import opened Wire

  // ----------------------------------------------------------- specification

  /** The elements of width bytes in s, each read by the scalar reader of the given order. */
  function Words(order: Order, width: nat, s: Bytes): (r: seq<nat>)
    requires width > 0
    ensures |r| == |s| / width
  {
    if |s| < width then []
    else
      WordCount(|s|, width);
      [FromFixed(order, s[..width])] + Words(order, width, s[width..])
  }

  lemma WordCount(n: nat, width: nat)
    requires 0 < width <= n
    ensures n / width == 1 + (n - width) / width
  {
    DivUnique(n, width, 1 + (n - width) / width, (n - width) % width);
  }

  /** The elements of width bytes in s, each reversed. */
  function Rotated(width: nat, s: Bytes): (r: Bytes)
    requires width > 0
    ensures |r| == |s|
  {
    if |s| < width then s else Reverse(s[..width]) + Rotated(width, s[width..])
  }

  /** Every element written by the scalar writer, in turn. */
  function WrittenWords(order: Order, width: nat, xs: seq<nat>): (s: Bytes)
    ensures |s| == |xs| * width
  {
    if xs == [] then [] else ToFixed(order, width, xs[0]) + WrittenWords(order, width, xs[1..])
  }

  // ------------------------------------------------------------------ lemmas

  function Other(order: Order): Order { if order.Little? then Big else Little }

  /** Rotating the memory and reading it in host order is reading it in the other order. */
  lemma {:induction false} RotatedReads(host: Order, width: nat, s: Bytes)
    requires width > 0
    ensures Words(host, width, Rotated(width, s)) == Words(Other(host), width, s)
  {
    if |s| >= width {
      var first := s[..width];
      assert Rotated(width, s)[..width] == Reverse(first);
      assert Rotated(width, s)[width..] == Rotated(width, s[width..]);
      ReverseTwice(first);
      RotatedReads(host, width, s[width..]);
    }
  }

  lemma {:induction false} WordsRoundTrip(order: Order, width: nat, xs: seq<nat>)
    requires width > 0 && forall i | 0 <= i < |xs| :: xs[i] < Pow2(8 * width)
    ensures Words(order, width, WrittenWords(order, width, xs)) == xs
  {
    if xs != [] {
      var s := WrittenWords(order, width, xs);
      WordsRoundTrip(order, width, xs[1..]);
      assert s[..width] == ToFixed(order, width, xs[0]);
      assert s[width..] == WrittenWords(order, width, xs[1..]);
      FixedRoundTrip(order, width, xs[0]);
      assert |s| >= width by { assert |s| == width + |WrittenWords(order, width, xs[1..])|; }
      assert [xs[0]] + xs[1..] == xs;
    }
  }

  lemma {:induction false} WordsBound(order: Order, width: nat, s: Bytes)
    requires width > 0
    ensures forall x | x in Words(order, width, s) :: x < Pow2(8 * width)
  {
    if |s| >= width {
      WordsBound(order, width, s[width..]);
      LittleValueBound(if order.Little? then s[..width] else Reverse(s[..width]));
    }
  }

  lemma {:induction false} RotatedSplits(width: nat, a: Bytes, b: Bytes, count: nat)
    requires width > 0 && |a| == count * width
    ensures Rotated(width, a + b) == Rotated(width, a) + Rotated(width, b)
  {
    if count == 0 {
      assert a + b == b;
    } else {
      assert count * width == (count - 1) * width + width;
      assert (count - 1) * width >= 0;
      RotatedSplits(width, a[width..], b, count - 1);
      assert (a + b)[..width] == a[..width];
      assert (a + b)[width..] == a[width..] + b;
    }
  }

  lemma RotatedOne(width: nat, s: Bytes)
    requires width > 0 && |s| == width
    ensures Rotated(width, s) == Reverse(s)
  {
    assert s[..width] == s && s[width..] == [];
    assert Rotated(width, []) == [];
  }

  lemma ReverseOfFour(s: Bytes)
    requires |s| == 4
    ensures Reverse(s) == [s[3], s[2], s[1], s[0]]
  {
    forall k | 0 <= k < 4 ensures Reverse(s)[k] == s[3 - k] { ReverseAt(s, k); }
  }

  lemma ReverseOfEight(s: Bytes)
    requires |s| == 8
    ensures Reverse(s) == [s[7], s[6], s[5], s[4], s[3], s[2], s[1], s[0]]
  {
    forall k | 0 <= k < 8 ensures Reverse(s)[k] == s[7 - k] { ReverseAt(s, k); }
  }

  /** One more element rotated, when the elements before it are. */
  lemma RotatedNext(width: nat, s: Bytes, i: nat)
    requires width > 0 && (i + 1) * width <= |s|
    ensures 0 <= i * width && (i + 1) * width == i * width + width
    ensures Rotated(width, s[..i * width + width]) ==
            Rotated(width, s[..i * width]) + Reverse(s[i * width..i * width + width])
  {
    var a, b := s[..i * width], s[i * width..i * width + width];
    assert s[..i * width + width] == a + b;
    RotatedSplits(width, a, b, i);
    RotatedOne(width, b);
  }

  // --------------------------------------------------------- in-place rotation

  /** The swaps of one four-byte element. */
  method ReverseFour(b: array<byte>, off: nat)
    requires off + 4 <= b.Length
    modifies b
    ensures b[..off] == old(b[..off]) && b[off + 4..] == old(b[off + 4..])
    ensures b[off..off + 4] == Reverse(old(b[off..off + 4]))
  {
    ReverseOfFour(b[off..off + 4]);
    b[off], b[off + 3] := b[off + 3], b[off];
    b[off + 1], b[off + 2] := b[off + 2], b[off + 1];
  }

  method Swap(b: array<byte>, i: nat, j: nat)
    requires i < b.Length && j < b.Length && i != j
    modifies b
    ensures b[i] == old(b[j]) && b[j] == old(b[i])
    ensures forall k | 0 <= k < b.Length && k != i && k != j :: b[k] == old(b[k])
  {
    b[i], b[j] := b[j], b[i];
  }

  /** The swaps of one eight-byte element. */
  method ReverseEight(b: array<byte>, off: nat)
    requires off + 8 <= b.Length
    modifies b
    ensures b[..off] == old(b[..off]) && b[off + 8..] == old(b[off + 8..])
    ensures b[off..off + 8] == Reverse(old(b[off..off + 8]))
  {
    ReverseOfEight(b[off..off + 8]);
    Swap(b, off, off + 7);
    Swap(b, off + 1, off + 6);
    Swap(b, off + 2, off + 5);
    Swap(b, off + 3, off + 4);
  }

  method RotateInt32s(b: array<byte>, n: nat)
    requires b.Length == n * 4
    modifies b
    ensures b[..] == Rotated(4, old(b[..]))
  {
    ghost var s := b[..];
    assert s[..0] == [];
    for i := 0 to n
      invariant b[..i * 4] == Rotated(4, s[..i * 4])
      invariant b[i * 4..] == s[i * 4..]
    {
      RotatedNext(4, s, i);
      TailSplits(b[..], s, i * 4, 4);
      ReverseFour(b, i * 4);
      assert b[..i * 4 + 4] == b[..i * 4] + b[i * 4..i * 4 + 4];
    }
    assert b[..n * 4] == b[..] && s[..n * 4] == s;
  }

  method RotateInt64s(b: array<byte>, n: nat)
    requires b.Length == n * 8
    modifies b
    ensures b[..] == Rotated(8, old(b[..]))
  {
    ghost var s := b[..];
    assert s[..0] == [];
    for i := 0 to n
      invariant b[..i * 8] == Rotated(8, s[..i * 8])
      invariant b[i * 8..] == s[i * 8..]
    {
      RotatedNext(8, s, i);
      TailSplits(b[..], s, i * 8, 8);
      ReverseEight(b, i * 8);
      assert b[..i * 8 + 8] == b[..i * 8] + b[i * 8..i * 8 + 8];
    }
    assert b[..n * 8] == b[..] && s[..n * 8] == s;
  }

  lemma TailSplits(b: Bytes, s: Bytes, off: nat, width: nat)
    requires |b| == |s| && off + width <= |b| && b[off..] == s[off..]
    ensures b[off..off + width] == s[off..off + width] && b[off + width..] == s[off + width..]
  {
    assert b[off..off + width] == b[off..][..width] && s[off..off + width] == s[off..][..width];
    assert b[off + width..] == b[off..][width..] && s[off + width..] == s[off..][width..];
  }

  /**
   * The tail of Int32Slice and Int64Slice once the bytes are there: rotate when the orders differ, then take the memory
   * as host words. What comes out does not depend on the host.
   */
  method Reinterpret(order: Order, host: Order, width: nat, b: array<byte>, n: nat) returns (words: seq<nat>)
    requires width == 4 || width == 8
    requires b.Length == n * width
    modifies b
    ensures words == Words(order, width, old(b[..]))
  {
    ghost var s := b[..];
    if order != host {
      if width == 4 {
        RotateInt32s(b, n);
      } else {
        RotateInt64s(b, n);
      }
      RotatedReads(host, width, s);
    }
    words := Words(host, width, b[..]);
  }
}
