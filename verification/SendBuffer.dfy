/**
 * The double-buffered send queue of a Conn, with the aliasing of Go slices: writers append to the live slice, a flusher
 * detaches it, encodes it packet by packet, clears it and gives its array back as the spare.
 *
 * Every method is what happens under one lock or in one access to an element; schedules call them in any order.
 */
module SendBuffer {
  import opened Wire

  /** An element of the queue: bytes that WritePacket copied for it, or the slice that a caller handed to Write. */
  datatype Packet = Copied(bytes: Bytes) | Kept(id: nat)

  /** The packets of the batches encoded so far, in order. */
  function Flatten(batches: seq<seq<Packet>>): seq<Packet>
  {
    if batches == [] then [] else batches[0] + Flatten(batches[1..])
  }

  lemma {:induction false} FlattenSnoc(batches: seq<seq<Packet>>, b: seq<Packet>)
    ensures Flatten(batches + [b]) == Flatten(batches) + b
  {
    if batches == [] {
      assert batches + [b] == [b] && [b][1..] == [];
    } else {
      assert (batches + [b])[1..] == batches[1..] + [b];
      FlattenSnoc(batches[1..], b);
      assert batches[0] + (Flatten(batches[1..]) + b) == batches[0] + Flatten(batches[1..]) + b;
    }
  }

  lemma FlattenEmpty(batches: seq<seq<Packet>>)
    ensures Flatten(batches + [[]]) == Flatten(batches)
  {
    FlattenSnoc(batches, []);
  }

  /** Where the goroutine that holds encMu is: nowhere, encoding, clearing, or about to give the array back. */
  datatype Phase = Idle | Encoding(next: nat) | Clearing(next: nat)

  class Sender {
    var live: array<Option<Packet>>       // bufferedSend, of which the first count elements are in the slice
    var count: nat
    var spare: array?<Option<Packet>>     // bufferedSendSpare, always sliced to length zero
    var flight: array<Option<Packet>>     // toSend, while a flush is under way
    var flying: nat
    var phase: Phase
    var batch: seq<Packet>                // what Encode has taken of the batch it is given
    var encoded: seq<seq<Packet>>         // the batches that Encode is done with
    ghost var written: seq<Packet>        // every packet ever written
    ghost var taken: seq<Packet>          // the packets of the batch in flight

    /** The elements of a slice, as packets. */
    static predicate Holds(a: seq<Option<Packet>>, s: seq<Packet>)
    {
      |s| <= |a| && forall i | 0 <= i < |s| :: a[i] == Some(s[i])
    }

    /** The packets of a slice without cleared elements. */
    static function Values(a: seq<Option<Packet>>): (s: seq<Packet>)
      requires forall i | 0 <= i < |a| :: a[i].Some?
      ensures |s| == |a| && forall i | 0 <= i < |a| :: s[i] == a[i].value
    {
      if a == [] then [] else [a[0].value] + Values(a[1..])
    }

    /** What the next flush will send. */
    ghost function Pending(): seq<Packet>
      reads this, live
      requires count <= live.Length && forall i | 0 <= i < count :: live[i].Some?
    {
      Values(live[..count])
    }

    /**
     * The three arrays are different ones, and every packet written is in exactly one place: in an encoded batch, in the
     * batch in flight, or in the live slice, in the order they were written.
     */
    ghost predicate Valid()
      reads this, live, flight
    {
      && live != flight && spare != live && spare != flight
      && count <= live.Length && flying <= flight.Length
      && (forall i | 0 <= i < count :: live[i].Some?)
      && (phase.Idle? ==> batch == [] && taken == [])
      && (phase.Encoding? ==>
           spare == null && phase.next <= flying && |taken| == flying > 0
           && Holds(flight[..], taken) && batch == taken[..phase.next])
      && (phase.Clearing? ==>
           spare == null && phase.next <= flying && batch == [] && taken == []
           && (forall i | 0 <= i < phase.next :: flight[i] == None))
      && written == Flatten(encoded) + taken + Pending()
    }

    lemma Parts()
      requires Valid()
      ensures count <= live.Length && forall i | 0 <= i < count :: live[i].Some?
      ensures written == Flatten(encoded) + taken + Pending()
    {
    }

    constructor ()
      ensures Valid() && written == [] && encoded == []
      ensures fresh(live) && fresh(flight) && spare == null
    {
      live := new Option<Packet>[0];
      flight := new Option<Packet>[0];
      count, flying, phase, batch, encoded := 0, 0, Idle, [], [];
      spare := null;
      written, taken := [], [];
    }

    /** The append of WritePacket and Write: in place while there is room, into a bigger array otherwise. */
    method Append(p: Packet)
      requires Valid()
      modifies this, live
      ensures Valid() && written == old(written) + [p]
      ensures encoded == old(encoded) && phase == old(phase) && batch == old(batch) && taken == old(taken)
      ensures flight == old(flight) && flying == old(flying) && flight[..] == old(flight[..])
      ensures spare == old(spare)
      ensures live == old(live) || fresh(live)
    {
      hide Values, Flatten, Holds;
      if count == live.Length {
        Grow();
      }
      ghost var before := Pending();
      live[count] := Some(p);
      assert live[..count + 1] == live[..count] + [Some(p)];
      ValuesSnoc(live[..count], p);
      count := count + 1;
      written := written + [p];
      Snoc(Flatten(encoded) + taken, before, p);
    }

    static lemma Snoc(a: seq<Packet>, b: seq<Packet>, p: Packet)
      ensures a + b + [p] == a + (b + [p])
    {
    }

    method Grow()
      requires Valid()
      modifies this`live
      ensures Valid() && fresh(live) && count < live.Length && Pending() == old(Pending())
    {
      ghost var before := Pending();
      live := Grown(live);
      assert live[..count] == old(live[..])[..count];
    }

    static lemma ValuesSnoc(a: seq<Option<Packet>>, p: Packet)
      requires forall i | 0 <= i < |a| :: a[i].Some?
      ensures Values(a + [Some(p)]) == Values(a) + [p]
    {
    }

    /** A bigger array with the same elements in front, as append allocates one. */
    static method Grown(a: array<Option<Packet>>) returns (b: array<Option<Packet>>)
      ensures fresh(b) && b.Length > a.Length && b[..a.Length] == a[..]
    {
      b := new Option<Packet>[2 * a.Length + 1](_ => None);
      for i := 0 to a.Length
        invariant b[..i] == a[..i]
      {
        b[i] := a[i];
      }
    }

    /** The first critical section of Flush: swap in the spare, or nothing if nothing is buffered. */
    method Detach() returns (busy: bool)
      requires Valid() && phase.Idle?
      modifies this
      ensures Valid() && written == old(written) && encoded == old(encoded)
      ensures busy <==> old(count) > 0
      ensures !busy ==> phase == Idle && live == old(live) && flight == old(flight) && spare == old(spare)
      ensures busy ==> phase == Encoding(0) && flight == old(live) && taken == old(Pending()) && count == 0
      ensures busy ==> spare == null && (live == old(spare) || fresh(live))
    {
      hide Values, Flatten;
      if count == 0 {
        return false;
      }
      taken := Pending();
      flight, flying := live, count;
      if spare == null {
        live := new Option<Packet>[0];
      } else {
        live := spare;
      }
      count, spare, phase := 0, null, Encoding(0);
      assert Pending() == [];
      assert Flatten(encoded) + [] + taken == Flatten(encoded) + taken + [];
      busy := true;
    }

    /** Encode takes the next packet of the batch; behind the last one the batch is out. */
    method EncodeNext()
      requires Valid() && phase.Encoding?
      modifies this
      ensures Valid() && written == old(written)
      ensures live == old(live) && spare == old(spare) && flight == old(flight) && flying == old(flying)
      ensures old(phase.next) < flying ==>
        old(phase.next) < |old(taken)| && phase == Encoding(old(phase.next) + 1) && batch == old(batch) + [old(taken)[old(phase.next)]]
        && encoded == old(encoded)
      ensures old(phase.next) == flying ==> phase == Clearing(0) && encoded == old(encoded) + [old(taken)]
    {
      if phase.next < flying {
        var i := phase.next;
        assert flight[..][i] == flight[i];
        batch := batch + [flight[i].value];
        phase := Encoding(i + 1);
        assert taken[..i + 1] == taken[..i] + [taken[i]];
      } else {
        assert taken[..flying] == taken;
        FlattenSnoc(encoded, batch);
        encoded, batch, taken, phase := encoded + [batch], [], [], Clearing(0);
        assert Flatten(encoded) + taken == Flatten(encoded);
      }
    }

    /** The loop that drops the references, one element; then the second critical section. */
    method ClearNext()
      requires Valid() && phase.Clearing?
      modifies this, flight
      ensures Valid() && written == old(written) && encoded == old(encoded)
      ensures old(phase.next) < old(flying) ==> phase == Clearing(old(phase.next) + 1)
      ensures old(phase.next) < old(flying) ==> spare == old(spare) && flight == old(flight)
      ensures old(phase.next) == old(flying) ==> phase == Idle && spare == old(flight) && fresh(flight)
      ensures live == old(live) && live[..] == old(live[..])
    {
      if phase.next < flying {
        ghost var before := Pending();
        flight[phase.next] := None;
        phase := Clearing(phase.next + 1);
        assert Pending() == before;
      } else {
        spare := flight;
        flight := new Option<Packet>[0];
        flying, phase := 0, Idle;
      }
    }

    /** Everything that Encode has taken so far. */
    ghost function Out(): seq<Packet>
      reads this
    {
      Flatten(encoded) + batch
    }

    /** What is written and not taken yet. */
    ghost function Rest(): (rest: seq<Packet>)
      requires Valid()
      reads this, live, flight
      ensures written == Out() + rest
    {
      assert phase.Encoding? ==> batch + taken[|batch|..] == taken;
      taken[|batch|..] + Pending()
    }

    /** The next step of a goroutine in Flush, or of one that calls it; what Encode takes in it, if anything. */
    method FlushNext() returns (p: Option<Packet>)
      requires Valid()
      modifies this, flight
      ensures Valid() && written == old(written)
      ensures Out() == old(Out()) + if p.Some? then [p.value] else []
      ensures live == old(live) || live == old(spare) || fresh(live)
      ensures flight == old(flight) || flight == old(live) || fresh(flight)
      ensures spare == null || spare == old(spare) || spare == old(flight)
    {
      hide Values, Flatten;
      p := None;
      match phase
      case Idle => var _ := Detach();
      case Clearing(_) => ClearNext();
      case Encoding(n) =>
        if n < flying {
          assert flight[..][n] == flight[n];
          p := flight[n];
        }
        FlattenSnoc(encoded, batch);
        assert taken[..flying] == taken;
        EncodeNext();
    }
  }

  /** Who acts next: a writer, a caller of Write that uses its slice again, or the goroutine that flushes. */
  datatype Turn = WritePacket(bytes: Bytes) | Write(id: nat) | Reuse(id: nat, bytes: Bytes) | Flush

  /** What the turns append, and the turns that do. */
  function Writes(turns: seq<Turn>): (r: seq<(Packet, nat)>)
    ensures forall k | 0 <= k < |r| :: r[k].1 < |turns|
  {
    if turns == [] then []
    else
      var n := |turns| - 1;
      Writes(turns[..n])
      + match turns[n]
        case WritePacket(b) => [(Copied(b), n)]
        case Write(id) => [(Kept(id), n)]
        case _ => []
  }

  /** What is in a caller's slice after some turns. */
  function Held(turns: seq<Turn>, id: nat): Bytes
  {
    if turns == [] then []
    else
      var turn := turns[|turns| - 1];
      if turn.Reuse? && turn.id == id then turn.bytes else Held(turns[..|turns| - 1], id)
  }

  /** The bytes of an element of the queue after some turns. */
  function Content(p: Packet, turns: seq<Turn>): Bytes
  {
    match p
    case Copied(b) => b
    case Kept(id) => Held(turns, id)
  }

  /** The k-th element is encoded at the given turn, with the bytes it has then. */
  predicate SentAt(turns: seq<Turn>, k: nat, when: nat, bytes: Bytes)
  {
    var w := Writes(turns);
    k < |w| && w[k].1 < when < |turns| && bytes == Content(w[k].0, turns[..when])
  }

  /** Every element encoded so far was encoded at one of the turns. */
  predicate AllSentAt(turns: seq<Turn>, when: seq<nat>, sent: seq<Bytes>)
  {
    |when| == |sent| && forall k | 0 <= k < |sent| :: SentAt(turns, k, when[k], sent[k])
  }

  lemma SentStays(turns: seq<Turn>, i: nat, k: nat, when: nat, bytes: Bytes)
    requires i < |turns| && SentAt(turns[..i], k, when, bytes)
    ensures SentAt(turns[..i + 1], k, when, bytes)
  {
    assert turns[..i + 1][..i] == turns[..i];
    assert turns[..i][..when] == turns[..i + 1][..when];
  }

  lemma AllSentNext(turns: seq<Turn>, i: nat, when: seq<nat>, sent: seq<Bytes>, b: Option<Bytes>)
    requires i < |turns| && AllSentAt(turns[..i], when, sent)
    requires b.Some? ==> SentAt(turns[..i + 1], |sent|, i, b.value)
    ensures AllSentAt(turns[..i + 1], when, sent)
    ensures b.Some? ==> AllSentAt(turns[..i + 1], when + [i], sent + [b.value])
  {
    hide SentAt;
    forall k | 0 <= k < |sent| ensures SentAt(turns[..i + 1], k, when[k], sent[k]) {
      SentStays(turns, i, k, when[k], sent[k]);
    }
  }

  function Elements(writes: seq<(Packet, nat)>): (r: seq<Packet>)
    ensures |r| == |writes| && forall k | 0 <= k < |r| :: r[k] == writes[k].0
  {
    if writes == [] then [] else [writes[0].0] + Elements(writes[1..])
  }

  lemma ElementsSnoc(turns: seq<Turn>, i: nat)
    requires i < |turns|
    ensures Elements(Writes(turns[..i + 1])) == Elements(Writes(turns[..i])) +
            match turns[i] case WritePacket(b) => [Copied(b)] case Write(id) => [Kept(id)] case _ => []
  {
    assert turns[..i + 1][..i] == turns[..i];
  }

  lemma EncodesNext(turns: seq<Turn>, i: nat, out: seq<Packet>, p: Packet, rest: seq<Packet>)
    requires i < |turns| && Elements(Writes(turns[..i])) == out + [p] + rest
    ensures SentAt(turns[..i + 1], |out|, i, Content(p, turns[..i]))
  {
    assert turns[..i + 1][..i] == turns[..i];
    assert (out + [p] + rest)[|out|] == p;
  }

  /** What a caller put into its slice between two turns, at last. */
  function Rewritten(turns: seq<Turn>, id: nat, from: nat, to: nat): Option<Bytes>
    requires from <= to <= |turns|
  {
    if from == to then None
    else if turns[to - 1].Reuse? && turns[to - 1].id == id then Some(turns[to - 1].bytes)
    else Rewritten(turns, id, from, to - 1)
  }

  lemma {:induction false} HeldSince(turns: seq<Turn>, id: nat, from: nat, to: nat)
    requires from <= to <= |turns|
    ensures Held(turns[..to], id) ==
            match Rewritten(turns, id, from, to) case None => Held(turns[..from], id) case Some(b) => b
  {
    if from < to {
      assert turns[..to][..to - 1] == turns[..to - 1];
      HeldSince(turns, id, from, to - 1);
    }
  }

  /** The bytes sent are those written, unless a caller of Write left other bytes in its slice before the encoder saw it. */
  lemma UnchangedIff(turns: seq<Turn>, k: nat, when: nat, bytes: Bytes)
    requires SentAt(turns, k, when, bytes)
    ensures var w := Writes(turns)[k];
      var wrote := Content(w.0, turns[..w.1]);
      bytes == wrote <==>
      w.0.Copied? || var b := Rewritten(turns, w.0.id, w.1, when); b == None || b == Some(wrote)
  {
    var w := Writes(turns)[k];
    if w.0.Kept? { HeldSince(turns, w.0.id, w.1, when); }
  }

  /** One turn; the bytes that it encodes, if any. */
  method Play(turns: seq<Turn>, i: nat, s: Sender) returns (b: Option<Bytes>)
    requires i < |turns| && s.Valid() && s.written == Elements(Writes(turns[..i]))
    modifies s, s.live, s.flight
    ensures s.Valid() && s.written == Elements(Writes(turns[..i + 1]))
    ensures |s.Out()| == |old(s.Out())| + if b.Some? then 1 else 0
    ensures b.Some? ==> SentAt(turns[..i + 1], |old(s.Out())|, i, b.value)
    ensures s.live == old(s.live) || s.live == old(s.spare) || fresh(s.live)
    ensures s.flight == old(s.flight) || s.flight == old(s.live) || fresh(s.flight)
    ensures s.spare == null || s.spare == old(s.spare) || s.spare == old(s.flight)
  {
    hide Sender.Values, Sender.Holds, Sender.Valid, Flatten, Writes, Elements, Content, SentAt;
    ElementsSnoc(turns, i);
    ghost var before := s.Out();
    b := None;
    match turns[i]
    case WritePacket(bytes) => s.Append(Copied(bytes));
    case Write(id) => s.Append(Kept(id));
    case Reuse(_, _) =>
    case Flush =>
      var p := s.FlushNext();
      if p.Some? {
        EncodesNext(turns, i, before, p.value, s.Rest());
        b := Some(Content(p.value, turns[..i]));
      }
  }

  /**
   * Any interleaving of writers, flushers, and callers that use a slice again. What was encoded, what is in flight and
   * what waits is exactly what was written, each element once and in the order of the writes; and the bytes encoded are
   * those the element has at the turn that encodes it.
   */
  method Interleave(turns: seq<Turn>)
    returns (sent: seq<Bytes>, batches: seq<seq<Packet>>, ghost flight: seq<Packet>, ghost waiting: seq<Packet>,
             ghost when: seq<nat>)
    ensures Flatten(batches) + flight + waiting == Elements(Writes(turns))
    ensures |sent| >= |Flatten(batches)| && AllSentAt(turns, when, sent)
  {
    assert turns[..0] == [] && Elements(Writes([])) == [] && AllSentAt([], [], []);
    var s := new Sender();
    sent, when := [], [];
    hide Sender.Values, Sender.Holds, Sender.Valid, Flatten, Writes, Elements, Content, SentAt, AllSentAt;
    for i := 0 to |turns|
      invariant s.Valid() && fresh(s) && fresh(s.live) && fresh(s.flight) && (s.spare != null ==> fresh(s.spare))
      invariant s.written == Elements(Writes(turns[..i]))
      invariant |sent| == |s.Out()| && AllSentAt(turns[..i], when, sent)
    {
      var b := Play(turns, i, s);
      AllSentNext(turns, i, when, sent, b);
      if b.Some? { sent, when := sent + [b.value], when + [i]; }
    }
    assert turns[..|turns|] == turns;
    s.Parts();
    batches, flight, waiting := s.encoded, s.taken, s.Pending();
  }
}
