/**
 * The queue of deferred packets: packets that own their bytes, a Go slice as a window over an array, and a wake-up channel
 * that holds at most one token.
 */
module Deferred {
  import opened Wire

  /** A Go slice of bytes: a window over an array. */
  datatype Slice = Slice(a: array<byte>, from: nat, to: nat) {
    ghost predicate Valid() reads a { from <= to <= a.Length }
    ghost function Bytes(): Bytes
      requires Valid()
      reads a
    {
      a[from..to]
    }
  }

  /** packetData: the whole packet, and what its payload buffer has left to read. */
  datatype Packet = Packet(full: Slice, payload: Slice, owned: bool) {
    ghost predicate Valid()
      reads full.a, payload.a
    {
      full.Valid() && payload.Valid()
    }
  }

  method Clone(s: Slice) returns (r: Slice)
    requires s.Valid()
    ensures r.Valid() && r.Bytes() == s.Bytes() && fresh(r.a) && r.from == 0 && r.to == r.a.Length
  {
    var a := new byte[s.to - s.from];
    for i := 0 to s.to - s.from
      invariant a[..i] == s.a[s.from..s.from + i]
    {
      a[i] := s.a[s.from + i];
    }
    r := Slice(a, 0, a.Length);
  }

  /** What ensureOwned makes of the payload's bytes: where they are taken from the whole packet, its last bytes. */
  function OwnedPayload(full: Bytes, payload: Bytes): Bytes
  {
    if |full| < |payload| then payload else full[|full| - |payload|..]
  }

  /** The payload survives exactly if it is the end of the packet, or cannot be a part of it at all. */
  lemma PayloadKeptIff(full: Bytes, payload: Bytes)
    ensures OwnedPayload(full, payload) == payload <==>
      |payload| > |full| || exists header: Bytes :: full == header + payload
  {
    if |payload| <= |full| {
      var cut := |full| - |payload|;
      assert full == full[..cut] + full[cut..];
      if exists header: Bytes :: full == header + payload {
        var header: Bytes :| full == header + payload;
        assert |header| == cut && full[cut..] == payload;
      }
    }
  }

  /** packetData.ensureOwned. */
  method EnsureOwned(p: Packet) returns (r: Packet)
    requires p.Valid()
    ensures r.Valid() && r.owned
    ensures p.owned ==> r == p
    ensures !p.owned ==> fresh(r.full.a) && fresh(r.payload.a)
    ensures !p.owned ==> r.full.Bytes() == p.full.Bytes()
    ensures !p.owned ==> r.payload.Bytes() == OwnedPayload(p.full.Bytes(), p.payload.Bytes())
  {
    if p.owned {
      return p;
    }
    var full := Clone(p.full);
    var offset := (p.full.to - p.full.from) - (p.payload.to - p.payload.from);
    var payload;
    if offset < 0 {
      payload := Clone(p.payload);
    } else {
      payload := Slice(full.a, offset, full.a.Length);
    }
    r := Packet(full, payload, true);
  }

  /** What a reader gets to see of a packet. */
  datatype Content = Content(full: Bytes, payload: Bytes)

  ghost function ContentOf(p: Packet): Content
    requires p.Valid()
    reads p.full.a, p.payload.a
  {
    Content(p.full.Bytes(), p.payload.Bytes())
  }

  /** What a deferred packet will read as. */
  function Kept(c: Content): Content
  {
    Content(c.full, OwnedPayload(c.full, c.payload))
  }

  /** Where the single reader is: between two looks at the queue, or waiting for the channel. */
  datatype Reader = Looking | Waiting

  datatype Cell = Empty | Full(p: Packet)

  class Queue {
    var cells: array<Cell>          // the array of deferredPackets
    var lo: nat                     // and the window over it
    var hi: nat
    var token: bool                 // packetReady holds its one token
    var posting: nat                // goroutines between the append and the send in deferPacket
    var reader: Reader
    ghost var contents: seq<Content>
    ghost var repr: set<array<byte>>

    /** The queued packets are owned, intact and in order; a reader that waits while there are some will be woken. */
    ghost predicate Valid()
      reads this, cells, repr
    {
      && lo <= hi <= cells.Length && |contents| == hi - lo
      && (forall i | lo <= i < hi :: Queued(cells[i], contents[i - lo]))
      && (reader.Waiting? && contents != [] ==> token || posting > 0)
    }

    ghost predicate Queued(cell: Cell, content: Content)
      reads this, repr
    {
      && cell.Full? && cell.p.full.a in repr && cell.p.payload.a in repr
      && cell.p.Valid() && ContentOf(cell.p) == content
    }

    constructor ()
      ensures Valid() && contents == [] && repr == {} && fresh(cells)
      ensures reader == Looking && !token && posting == 0
    {
      cells := new Cell[0];
      lo, hi, token, posting, reader := 0, 0, false, 0, Looking;
      contents, repr := [], {};
    }

    /** deferPacket up to its unlock: the packet's bytes are copied, so the batch buffer they lie in may be reused. */
    method Defer(p: Packet)
      requires Valid() && p.Valid() && !p.owned
      modifies this, cells
      ensures Valid() && contents == old(contents) + [Kept(ContentOf(p))] && posting == old(posting) + 1
      ensures token == old(token) && reader == old(reader)
      ensures fresh(repr - old(repr)) && (cells == old(cells) || fresh(cells))
    {
      ghost var content := Kept(ContentOf(p));
      var q := EnsureOwned(p);
      assert ContentOf(q) == content;
      if hi == cells.Length {
        Grow();
      }
      Append(q, content);
    }

    method Append(p: Packet, ghost content: Content)
      requires Valid() && hi < cells.Length && p.Valid() && ContentOf(p) == content
      modifies this, cells
      ensures Valid() && contents == old(contents) + [content] && posting == old(posting) + 1
      ensures token == old(token) && reader == old(reader) && cells == old(cells)
      ensures repr == old(repr) + {p.full.a, p.payload.a}
    {
      cells[hi] := Full(p);
      hi := hi + 1;
      contents := contents + [content];
      repr := repr + {p.full.a, p.payload.a};
      posting := posting + 1;
    }

    /** append into a bigger array: the window moves to its front. */
    method Grow()
      requires Valid() && hi == cells.Length
      modifies this`cells, this`lo, this`hi
      ensures Valid() && fresh(cells) && hi < cells.Length && contents == old(contents)
    {
      ghost var window := cells[lo..hi];
      var bigger := Grown(cells, lo, hi);
      cells, lo, hi := bigger, 0, hi - lo;
      assert forall i | 0 <= i < hi :: cells[i] == window[i];
    }

    static method Grown(a: array<Cell>, lo: nat, hi: nat) returns (b: array<Cell>)
      requires lo <= hi <= a.Length
      ensures fresh(b) && b.Length > hi - lo && b[..hi - lo] == a[lo..hi]
    {
      b := new Cell[2 * (hi - lo) + 1](_ => Empty);
      for i := 0 to hi - lo
        invariant b[..i] == a[lo..lo + i]
      {
        b[i] := a[lo + i];
      }
    }

    /** The send at the end of deferPacket, which gives up if the channel is full. */
    method Post()
      requires Valid() && posting > 0
      modifies this`token, this`posting
      ensures Valid() && token && posting == old(posting) - 1 && contents == old(contents) && reader == old(reader)
    {
      token, posting := true, posting - 1;
    }

    /** takeDeferredPacket in readPacketData: the oldest packet, or the reader goes to wait. */
    method Look() returns (p: Option<Packet>)
      requires Valid() && reader.Looking?
      modifies this, cells
      ensures Valid() && repr == old(repr) && cells == old(cells) && posting == old(posting) && token == old(token)
      ensures old(contents) == [] ==> p == None && reader == Waiting && contents == []
      ensures old(contents) != [] ==>
        p.Some? && p.value.Valid() && ContentOf(p.value) == old(contents)[0] && contents == old(contents)[1..]
        && reader == Looking && p.value.full.a in repr && p.value.payload.a in repr
    {
      if lo == hi {
        reader := Waiting;
        return None;
      }
      var taken := cells[lo];
      cells[lo] := Empty;
      if hi - lo == 1 {
        hi := lo;
      } else {
        lo := lo + 1;
      }
      contents := contents[1..];
      p := Some(taken.p);
    }

    /** The reader takes the token. */
    method Wake()
      requires Valid() && reader.Waiting? && token
      modifies this`token, this`reader
      ensures Valid() && reader == Looking && !token && contents == old(contents) && posting == old(posting)
    {
      token, reader := false, Looking;
    }
  }

  /** A packet as it lies in the pooled buffer of a batch: at an offset, with a header in front of the payload. */
  datatype Turn = Arrive(batch: Bytes, from: nat, header: nat) | Post | Look | Wake

  predicate InBatch(t: Turn) { t.Arrive? ==> t.from + t.header <= |t.batch| }

  predicate InBatches(turns: seq<Turn>)
  {
    forall i | 0 <= i < |turns| :: InBatch(turns[i])
  }

  function Arrived(t: Turn): Content
    requires t.Arrive? && InBatch(t)
  {
    Content(t.batch[t.from..], t.batch[t.from + t.header..])
  }

  function Arriving(t: Turn): seq<Content>
    requires InBatch(t)
  {
    if t.Arrive? then [Arrived(t)] else []
  }

  /** The packets that arrive, with their payloads. */
  function Arrivals(turns: seq<Turn>): seq<Content>
    requires InBatches(turns)
  {
    if turns == [] then []
    else Arriving(turns[0]) + Arrivals(turns[1..])
  }

  lemma PayloadIsEnd(batch: Bytes, from: nat, header: nat)
    requires from + header <= |batch|
    ensures OwnedPayload(batch[from..], batch[from + header..]) == batch[from + header..]
  {
    assert batch[from..] == batch[from..from + header] + batch[from + header..];
    PayloadKeptIff(batch[from..], batch[from + header..]);
  }

  // ------------------------------------------------------------------------ runs

  /** What was read and what is queued, where the reader is, and what stands between it and being woken. */
  datatype Standing = Standing(read: seq<Content>, queued: seq<Content>, reader: Reader, token: bool, posting: nat)

  /** A turn that cannot be taken lets the others go on. */
  function Take(s: Standing, t: Turn): Standing
    requires InBatch(t)
  {
    match t
    case Arrive(_, _, _) => s.(queued := s.queued + [Arrived(t)], posting := s.posting + 1)
    case Post => if s.posting > 0 then s.(token := true, posting := s.posting - 1) else s
    case Look =>
      if s.reader.Waiting? then s
      else if s.queued == [] then s.(reader := Waiting)
      else s.(read := s.read + [s.queued[0]], queued := s.queued[1..])
    case Wake => if s.reader.Waiting? && s.token then s.(reader := Looking, token := false) else s
  }

  function Run(s: Standing, turns: seq<Turn>): Standing
    requires InBatches(turns)
    decreases |turns|
  {
    if turns == [] then s else Run(Take(s, turns[0]), turns[1..])
  }

  const START := Standing([], [], Looking, false, 0)

  lemma TakeInOrder(s: Standing, t: Turn)
    requires InBatch(t)
    ensures Take(s, t).read + Take(s, t).queued == s.read + s.queued + Arriving(t)
  {
    hide Arrived;
    if t.Look? && s.reader.Looking? && s.queued != [] {
      assert s.read + [s.queued[0]] + s.queued[1..] == s.read + s.queued;
    }
  }

  /** What was read and what is queued are the packets that arrived, in their order. */
  lemma {:induction false} InOrder(s: Standing, turns: seq<Turn>)
    requires InBatches(turns)
    ensures Run(s, turns).read + Run(s, turns).queued == s.read + s.queued + Arrivals(turns)
    decreases |turns|
  {
    hide Take, Arriving;
    if turns == [] {
      assert s.read + s.queued + [] == s.read + s.queued;
    } else {
      TakeInOrder(s, turns[0]);
      InOrder(Take(s, turns[0]), turns[1..]);
      assert s.read + s.queued + (Arriving(turns[0]) + Arrivals(turns[1..])) ==
             s.read + s.queued + Arriving(turns[0]) + Arrivals(turns[1..]);
    }
  }

  predicate Awake(s: Standing)
  {
    s.queued != [] && s.reader.Waiting? ==> s.token || s.posting > 0
  }

  lemma {:induction false} StaysAwake(s: Standing, turns: seq<Turn>)
    requires InBatches(turns) && Awake(s)
    ensures Awake(Run(s, turns))
    decreases |turns|
  {
    if turns != [] {
      StaysAwake(Take(s, turns[0]), turns[1..]);
    }
  }

  /** In every run: while packets are queued and no send is due, the reader is looking or its token is in the channel. */
  lemma NoLostWakeUp(turns: seq<Turn>)
    requires InBatches(turns)
    ensures var s := Run(START, turns); s.queued != [] && s.posting == 0 ==> s.reader.Looking? || s.token
  {
    StaysAwake(START, turns);
  }

  function Repeat(t: Turn, n: nat): (turns: seq<Turn>)
    ensures |turns| == n && forall i | 0 <= i < n :: turns[i] == t
  {
    if n == 0 then [] else [t] + Repeat(t, n - 1)
  }

  lemma {:induction false} RunJoins(s: Standing, a: seq<Turn>, b: seq<Turn>)
    requires InBatches(a) && InBatches(b)
    ensures InBatches(a + b) && Run(s, a + b) == Run(Run(s, a), b)
    decreases |a|
  {
    if a == [] {
      assert a + b == b;
    } else {
      RunJoins(Take(s, a[0]), a[1..], b);
      assert (a + b)[1..] == a[1..] + b;
    }
  }

  lemma {:induction false} Posts(s: Standing, n: nat)
    requires n <= s.posting
    ensures Run(s, Repeat(Post, n)) == s.(posting := s.posting - n, token := s.token || n > 0)
    decreases n
  {
    if n > 0 {
      assert Repeat(Post, n)[1..] == Repeat(Post, n - 1);
      Posts(Take(s, Post), n - 1);
    }
  }

  lemma {:induction false} Looks(s: Standing, n: nat)
    requires s.reader.Looking? && n == |s.queued|
    ensures Run(s, Repeat(Look, n)) == s.(read := s.read + s.queued, queued := [])
    decreases n
  {
    if n > 0 {
      assert Repeat(Look, n)[1..] == Repeat(Look, n - 1);
      Looks(Take(s, Look), n - 1);
      assert s.read + [s.queued[0]] + s.queued[1..] == s.read + s.queued;
    } else {
      assert s.read + s.queued == s.read;
    }
  }

  /** The sends that are due, a wake-up, and a look for every packet queued. */
  function Finish(s: Standing): (turns: seq<Turn>)
    ensures InBatches(turns)
  {
    Repeat(Post, s.posting) + ([Wake] + Repeat(Look, |s.queued|))
  }

  lemma FinishReads(s: Standing)
    requires Awake(s)
    ensures Run(s, Finish(s)).read == s.read + s.queued && Run(s, Finish(s)).queued == []
  {
    hide Repeat;
    var looks := Repeat(Look, |s.queued|);
    Posts(s, s.posting);
    var posted := Run(s, Repeat(Post, s.posting));
    RunJoins(s, Repeat(Post, s.posting), [Wake] + looks);
    assert ([Wake] + looks)[1..] == looks;
    if s.queued == [] {
      assert looks == [] && s.read + s.queued == s.read;
    } else {
      Looks(Take(posted, Wake), |s.queued|);
    }
  }

  /**
   * The reader is never stuck: from wherever a run has got to, the sends that are due, at most one wake-up and as many
   * looks as there are packets lead to a run in which everything that arrived has been read, in order.
   */
  lemma Drains(turns: seq<Turn>)
    requires InBatches(turns)
    ensures var more := Finish(Run(START, turns));
      && InBatches(turns + more)
      && Run(START, turns + more).queued == [] && Run(START, turns + more).read == Arrivals(turns)
  {
    hide Finish, Take;
    var s := Run(START, turns);
    StaysAwake(START, turns);
    InOrder(START, turns);
    assert [] + [] + Arrivals(turns) == Arrivals(turns);
    RunJoins(START, turns, Finish(s));
    FinishReads(s);
  }

  /**
   * Any interleaving of a decoder that reuses one buffer for every batch, of posts, and of a reader goes as the run of its
   * turns does: the reader gets the packets with the bytes they arrived with, although the buffer was overwritten.
   */
  method Interleave(turns: seq<Turn>) returns (ghost read: seq<Content>, ghost s: Standing)
    requires InBatches(turns)
    ensures s == Run(START, turns) && read == s.read
  {
    var q := new Queue();
    s, read := START, [];
    var pool := new byte[0];
    assert turns[0..] == turns;
    for i := 0 to |turns|
      invariant q.Valid() && fresh(q) && fresh(q.cells) && fresh(pool) && pool !in q.repr
      invariant forall a | a in q.repr :: fresh(a)
      invariant InBatches(turns[i..]) && Run(s, turns[i..]) == Run(START, turns)
      invariant s.read == read && s.queued == q.contents && s.reader == q.reader && s.token == q.token && s.posting == q.posting
    {
      assert turns[i..][0] == turns[i] && turns[i..][1..] == turns[i + 1..];
      s := Take(s, turns[i]);
      match turns[i] {
        case Arrive(batch, from, header) => pool := Receive(q, pool, batch, from, header);
        case Post => if q.posting > 0 { q.Post(); }
        case Look =>
          if q.reader.Looking? {
            var p := q.Look();
            if p.Some? { read := read + [ContentOf(p.value)]; }
          }
        case Wake => if q.reader.Waiting? && q.token { q.Wake(); }
      }
    }
    assert turns[|turns|..] == [];
  }

  /** The next batch is decoded into the pooled buffer, and one packet of it is deferred. */
  method Receive(q: Queue, pool: array<byte>, batch: Bytes, from: nat, header: nat) returns (r: array<byte>)
    requires q.Valid() && pool !in q.repr && from + header <= |batch|
    modifies q, q.cells, pool
    ensures q.Valid() && q.contents == old(q.contents) + [Content(batch[from..], batch[from + header..])]
    ensures r !in q.repr && (r == pool || fresh(r))
    ensures fresh(q.repr - old(q.repr)) && (q.cells == old(q.cells) || fresh(q.cells))
    ensures q.token == old(q.token) && q.reader == old(q.reader) && q.posting == old(q.posting) + 1
  {
    r := Refill(pool, batch, q);
    var p := Packet(Slice(r, from, r.Length), Slice(r, from + header, r.Length), false);
    PayloadIsEnd(batch, from, header);
    assert r[from..r.Length] == r[..][from..];
    assert r[from + header..r.Length] == r[..][from + header..];
    assert Kept(ContentOf(p)) == Content(batch[from..], batch[from + header..]);
    q.Defer(p);
  }

  /** The decoder's pooled buffer for the next batch: the old array where it is big enough, as a pool has it. */
  method Refill(pool: array<byte>, batch: Bytes, ghost q: Queue) returns (r: array<byte>)
    requires q.Valid() && pool !in q.repr
    modifies pool
    ensures r[..] == batch && (r == pool || fresh(r)) && q.Valid() && r !in q.repr
  {
    if pool.Length == |batch| {
      r := pool;
    } else {
      r := new byte[|batch|];
    }
    for i := 0 to |batch|
      invariant r[..i] == batch[..i] && q.Valid()
      modifies r
    {
      r[i] := batch[i];
    }
  }
}
