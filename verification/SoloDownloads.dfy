/**
 * The downloads of a dialer, whatever the listener sends and whenever: a pack is put together from the chunks that were
 * taken for it, in order, and every chunk ends up where it belongs in the archive.
 */
module SoloDownloads {
  import opened Wire
  import opened Packs
  import opened Session
  import opened SessionScript
  import opened Solo

  /** The chunks of a pack among the packets handled, since the packs and its data info were announced last. */
  function Taken(handled: seq<Packet>, id: nat): seq<Bytes>
  {
    if handled == [] then []
    else
      var before, p := Taken(handled[..|handled| - 1], id), handled[|handled| - 1];
      if p.ResourcePacksInfo? || (p.DataInfo? && p.id == id) then []
      else if p.ChunkData? && p.id == id then before + [p.data]
      else before
  }

  function Parts(d: Download): nat
    requires d.chunk > 0
  {
    Chunks(d.size, d.chunk)
  }

  /** How many chunks the goroutine of a download has stored. */
  function Stored(d: Download): nat
    requires d.chunk > 0
  {
    match d.at
    case Asking(k) => k
    case Listening(k) => k
    case Storing(k, _) => k
    case _ => Parts(d)
  }

  /** How many chunks the goroutine has received. */
  function Got(d: Download): nat
    requires d.chunk > 0
  {
    Stored(d) + if d.at.Storing? then 1 else 0
  }

  /** Every chunk that was taken has the full size, but for the last one of the pack. */
  predicate FullSize(d: Download, taken: seq<Bytes>)
    requires d.chunk > 0
  {
    forall j | 0 <= j < |taken| && j + 1 < Parts(d) :: |taken[j]| == d.chunk
  }

  /** The buffer holds the chunks stored so far, and the goroutine has no more than there are. */
  predicate Assembled(d: Download, taken: seq<Bytes>)
  {
    && d.chunk > 0 && |taken| == d.index && FullSize(d, taken)
    && Got(d) <= |taken| && Got(d) <= Parts(d)
    && d.buf == Concat(taken[..Stored(d)])
    && (d.at.Listening? ==> d.at.k < Parts(d))
    && (d.at.Storing? ==> d.at.frag == taken[d.at.k])
  }

  /** The reader hands over one chunk at most, the last that was taken; the goroutines have received all others. */
  predicate Handing(q: Queue, handled: seq<Packet>, todo: seq<Op>)
  {
    && (forall j | 1 <= j < |todo| :: !todo[j].Deliver?)
    && (forall id | id in q.downloads :: q.downloads[id].chunk > 0 &&
          Got(q.downloads[id]) + (if todo != [] && todo[0].Deliver? && todo[0].id == id then 1 else 0) == q.downloads[id].index)
    && (todo != [] && todo[0].Deliver? ==>
          var taken := Taken(handled, todo[0].id); taken != [] && todo[0].data == taken[|taken| - 1])
  }

  predicate Whole(q: Queue, handled: seq<Packet>)
  {
    forall id | id in q.downloads :: Assembled(q.downloads[id], Taken(handled, id))
  }

  predicate Sound(c: Conn)
  {
    Whole(c.queue, c.handled) && Handing(c.queue, c.handled, c.todo)
  }

  // ---------------------------------------------------------------- arithmetic

  lemma {:induction false} ConcatSnoc(pieces: seq<Bytes>, piece: Bytes)
    ensures Concat(pieces + [piece]) == Concat(pieces) + piece
  {
    if pieces == [] {
      assert pieces + [piece] == [piece];
    } else {
      assert (pieces + [piece])[1..] == pieces[1..] + [piece];
      ConcatSnoc(pieces[1..], piece);
    }
  }

  /** So many pieces of one size. */
  lemma {:induction false} ConcatLength(pieces: seq<Bytes>, chunk: nat)
    requires forall j | 0 <= j < |pieces| :: |pieces[j]| == chunk
    ensures |Concat(pieces)| == |pieces| * chunk
  {
    if pieces != [] {
      ConcatLength(pieces[1..], chunk);
      assert |pieces| * chunk == chunk + (|pieces| - 1) * chunk;
    }
  }

  /** A chunk is one of the pack if it begins within it. */
  lemma BeginsWithin(size: nat, chunk: nat, k: nat)
    requires chunk > 0
    ensures k < Chunks(size, chunk) <==> k * chunk < size
  {
    var q, r := size / chunk, size % chunk;
    assert size == q * chunk + r;
    if k < q { assert k * chunk + chunk == (k + 1) * chunk <= q * chunk; }
    if k > q { assert k * chunk >= (q + 1) * chunk == q * chunk + chunk; }
  }

  /** What is stored before the last chunk is as long as that many full ones. */
  lemma StoredLength(d: Download, taken: seq<Bytes>)
    requires Assembled(d, taken) && (Stored(d) < Parts(d) || Parts(d) == 0)
    ensures |d.buf| == Stored(d) * d.chunk
  {
    hide Chunks;
    ConcatLength(taken[..Stored(d)], d.chunk);
  }

  // ----------------------------------------------------------------- the handlers

  lemma OneMore(handled: seq<Packet>, p: Packet, id: nat)
    ensures var before := Taken(handled, id);
      Taken(handled + [p], id) ==
        if p.ResourcePacksInfo? || (p.DataInfo? && p.id == id) then []
        else if p.ChunkData? && p.id == id then before + [p.data]
        else before
  {
    assert (handled + [p])[..|handled|] == handled;
  }

  lemma TimesGrows(a: nat, b: nat, chunk: nat)
    requires a <= b
    ensures a * chunk + chunk <= (b + 1) * chunk
  {
    assert (b + 1) * chunk == b * chunk + chunk && b * chunk == a * chunk + (b - a) * chunk;
  }

  /** Before the last chunk, the goroutine's buffer never looks as if the next one were the last. */
  lemma NotLast(d: Download, taken: seq<Bytes>)
    requires Assembled(d, taken) && d.index + 1 < Parts(d)
    ensures |d.buf| + d.chunk < d.size
  {
    hide Chunks, FullSize;
    StoredLength(d, taken);
    TimesGrows(Stored(d), d.index, d.chunk);
    BeginsWithin(d.size, d.chunk, d.index + 1);
  }

  lemma AsManyTaken(d: Download, taken: seq<Bytes>)
    requires Assembled(d, taken)
    ensures d.chunk > 0 && |taken| == d.index
  {
  }

  /** The handler takes a chunk that has to be full only if it is. */
  lemma TakesFull(q: Queue, handled: seq<Packet>, id: nat, index: nat, data: Bytes)
    requires Whole(q, handled) && HandleChunkData(q, id, index, data).Does?
    ensures var d := q.downloads[id]; index == d.index && (index + 1 < Parts(d) ==> |data| == d.chunk)
  {
    hide Assembled, Chunks;
    var d := q.downloads[id];
    AsManyTaken(d, Taken(handled, id));
    if index + 1 < Parts(d) && index == d.index {
      NotLast(d, Taken(handled, id));
    }
  }

  predicate Moves(p: Packet) { p.ResourcePacksInfo? || p.DataInfo? || p.ChunkData? }

  /** The other handlers leave the queue of packs as it is, and hand nothing over. */
  lemma OthersKeep(cfg: Config, g: Gate, q: Queue, p: Packet)
    requires !Moves(p) && HandleDown(cfg, g, q, p).Does?
    ensures HandleDown(cfg, g, q, p).q == q
    ensures forall j | 0 <= j < |HandleDown(cfg, g, q, p).ops| :: !HandleDown(cfg, g, q, p).ops[j].Deliver?
  {
    hide Accepts;
  }

  lemma ReadSound(cfg: Config, c: Conn)
    requires Sound(c) && CanReceive(c)
    ensures Sound(Receive(cfg, c, false))
  {
    hide Sound, HandleDown, Taken;
    var p := c.inbox[0];
    var h := HandleDown(cfg, c.gate, c.queue, p);
    if Defers(c.gate, p) || h.Errs? {
      SoundSame(c, Receive(cfg, c, false));
    } else if !Moves(p) {
      OthersKeep(cfg, c.gate, c.queue, p);
      OthersSound(c, Receive(cfg, c, false), p);
    } else if p.ResourcePacksInfo? {
      PacksSound(cfg, c, p);
    } else if p.DataInfo? {
      InfoSound(cfg, c, p);
    } else {
      ChunkSound(cfg, c, p);
    }
  }

  lemma SoundSame(c: Conn, c': Conn)
    requires Sound(c) && c'.queue.downloads == c.queue.downloads && c'.handled == c.handled && c'.todo == c.todo
    ensures Sound(c')
  {
    hide Assembled, Taken, Got;
  }

  lemma OthersSound(c: Conn, c': Conn, p: Packet)
    requires Sound(c) && c.todo == [] && c'.queue == c.queue && c'.handled == c.handled + [p] && !Moves(p)
    requires forall j | 0 <= j < |c'.todo| :: !c'.todo[j].Deliver?
    ensures Sound(c')
  {
    hide Assembled, Taken, Got;
    forall id ensures Taken(c'.handled, id) == Taken(c.handled, id) { OneMore(c.handled, p, id); }
  }

  lemma PacksSound(cfg: Config, c: Conn, p: Packet)
    requires Sound(c) && CanReceive(c) && c.inbox[0] == p && p.ResourcePacksInfo? && !Defers(c.gate, p)
    ensures Sound(Receive(cfg, c, false))
  {
    hide Sort, Ids;
  }

  lemma InfoSound(cfg: Config, c: Conn, p: Packet)
    requires Sound(c) && CanReceive(c) && c.inbox[0] == p && p.DataInfo? && !Defers(c.gate, p)
    requires HandleDown(cfg, c.gate, c.queue, p).Does?
    ensures Sound(Receive(cfg, c, false))
  {
    hide Assembled, Taken, Chunks;
    var c' := Receive(cfg, c, false);
    forall id | id in c'.queue.downloads
      ensures Assembled(c'.queue.downloads[id], Taken(c'.handled, id)) && c'.queue.downloads[id].chunk > 0
      ensures Got(c'.queue.downloads[id]) == c'.queue.downloads[id].index
    {
      OneMore(c.handled, p, id);
      if id == p.id { FreshAssembled(p.size, p.chunk); }
    }
  }

  lemma FreshAssembled(size: nat, chunk: nat)
    requires chunk > 0
    ensures Assembled(Download.Download(size, chunk, 0, [], Asking(0)), [])
  {
  }

  lemma ChunkSound(cfg: Config, c: Conn, p: Packet)
    requires Sound(c) && CanReceive(c) && c.inbox[0] == p && p.ChunkData? && !Defers(c.gate, p)
    requires HandleDown(cfg, c.gate, c.queue, p).Does?
    ensures Sound(Receive(cfg, c, false))
  {
    hide Assembled, Taken, Chunks;
    var c' := Receive(cfg, c, false);
    TakesFull(c.queue, c.handled, p.id, p.index, p.data);
    forall id | id in c'.queue.downloads
      ensures Assembled(c'.queue.downloads[id], Taken(c'.handled, id)) && c'.queue.downloads[id].chunk > 0
    {
      OneMore(c.handled, p, id);
      if id == p.id { MoreAssembled(c.queue.downloads[id], Taken(c.handled, id), p.data); }
    }
    OneMore(c.handled, p, p.id);
  }

  lemma MoreAssembled(d: Download, taken: seq<Bytes>, data: Bytes)
    requires Assembled(d, taken) && (d.index + 1 < Parts(d) ==> |data| == d.chunk)
    ensures Assembled(d.(index := d.index + 1), taken + [data])
  {
    hide Chunks;
    assert (taken + [data])[..Stored(d)] == taken[..Stored(d)];
  }

  // ------------------------------------------------------------------- steps

  /** The reader's next operation. */
  lemma WorkSound(c: Conn)
    requires Sound(c) && CanStep(c)
    ensures Sound(Step(c))
  {
    if c.todo[0].Deliver? {
      HandedSound(c, c.todo[0].id, c.todo[0].data);
    } else {
      hide Assembled, Taken, Got, Stored, Parts;
    }
  }

  lemma HandedSound(c: Conn, id: nat, data: Bytes)
    requires Sound(c) && CanStep(c) && c.todo[0] == Deliver(id, data)
    ensures Sound(Step(c))
  {
    hide Assembled, Taken, Chunks;
    var d, taken := c.queue.downloads[id], Taken(c.handled, id);
    AsManyTaken(d, taken);
    HandedAssembled(d, taken, data);
    var c' := Step(c);
    forall i | i in c'.queue.downloads ensures Assembled(c'.queue.downloads[i], Taken(c'.handled, i)) {
      if i != id { assert c'.queue.downloads[i] == c.queue.downloads[i]; }
    }
  }

  lemma HandedAssembled(d: Download, taken: seq<Bytes>, data: Bytes)
    requires Assembled(d, taken) && d.at.Listening? && d.at.k + 1 == d.index && data == taken[d.index - 1]
    ensures Assembled(d.(at := Storing(d.at.k, data)), taken)
  {
    hide Chunks;
  }

  lemma FetchSound(cfg: Config, c: Conn, id: nat)
    requires Sound(c) && CanFetch(c.queue, id)
    ensures Sound(FetchStep(cfg, c, id))
  {
    hide Assembled, Taken, Chunks, Finish, Got;
    var d, taken := c.queue.downloads[id], Taken(c.handled, id);
    FetchAssembled(cfg, c, id, taken);
    var c' := FetchStep(cfg, c, id);
    FetchOthers(cfg, c, id);
    forall i | i in c'.queue.downloads ensures Assembled(c'.queue.downloads[i], Taken(c'.handled, i)) {
      if i != id { assert c'.queue.downloads[i] == c.queue.downloads[i]; }
    }
  }

  lemma FetchOthers(cfg: Config, c: Conn, id: nat)
    requires CanFetch(c.queue, id)
    ensures var c' := FetchStep(cfg, c, id);
      && c'.todo == c.todo && c'.handled == c.handled && c'.queue.downloads.Keys == c.queue.downloads.Keys
      && (forall i | i in c.queue.downloads && i != id :: c'.queue.downloads[i] == c.queue.downloads[i])
  {
    hide ReadPack, Chunks;
  }

  lemma FetchAssembled(cfg: Config, c: Conn, id: nat, taken: seq<Bytes>)
    requires CanFetch(c.queue, id) && Assembled(c.queue.downloads[id], taken)
    ensures var d, d' := c.queue.downloads[id], FetchStep(cfg, c, id).queue.downloads[id];
      Assembled(d', taken) && Got(d') == Got(d) && d'.index == d.index && d'.chunk == d.chunk
  {
    hide ReadPack, Chunks;
    var d := c.queue.downloads[id];
    if d.at.Storing? {
      ConcatSnoc(taken[..d.at.k], d.at.frag);
      assert taken[..d.at.k + 1] == taken[..d.at.k] + [d.at.frag];
    }
  }

  lemma TurnSound(cfg: Config, c: Conn, t: Solo.Turn)
    requires Sound(c)
    ensures Sound(Solo.Take(cfg, c, false, t))
  {
    hide Sound, Receive, Step, FetchStep, CanStep, CanReceive, CanFetch;
    match t
    case Read(order) => if CanReceive(c) { ReadSound(cfg.(order := order), c); }
    case Work => if CanStep(c) { WorkSound(c); }
    case Download(id) => if CanFetch(c.queue, id) { FetchSound(cfg, c, id); }
    case _ => SoundSame(c, Solo.Take(cfg, c, false, t));
  }

  /** Every state of every run. */
  lemma {:induction false} AlwaysSound(cfg: Config, turns: seq<Solo.Turn>)
    ensures Sound(Dialer(cfg, turns))
  {
    if turns == [] {
      hide Assembled;
    } else {
      AlwaysSound(cfg, turns[..|turns| - 1]);
      hide Sound, Solo.Take;
      TurnSound(cfg, Dialer(cfg, turns[..|turns| - 1]), turns[|turns| - 1]);
    }
  }

  /**
   * Whatever a listener sends: the buffer of every download is the chunks taken for it, as many as it has stored, in the
   * order in which they were taken; each is of full size but for the last, so that chunk k begins at k times the chunk size;
   * and nothing is stored behind the last chunk.
   */
  lemma ChunksInPlace(cfg: Config, turns: seq<Solo.Turn>, id: nat)
    requires id in Dialer(cfg, turns).queue.downloads
    ensures var c := Dialer(cfg, turns);
      var d, taken := c.queue.downloads[id], Taken(c.handled, id);
      && d.chunk > 0 && Stored(d) <= |taken| == d.index && Stored(d) <= Parts(d)
      && d.buf == Concat(taken[..Stored(d)])
      && (forall j | 0 <= j < |taken| && j + 1 < Parts(d) :: |taken[j]| == d.chunk)
      && (Stored(d) < Parts(d) ==> |d.buf| == Stored(d) * d.chunk)
  {
    AlwaysSound(cfg, turns);
    hide Chunks, Dialer, Handing;
    var c := Dialer(cfg, turns);
    assert Assembled(c.queue.downloads[id], Taken(c.handled, id));
    if Stored(c.queue.downloads[id]) < Parts(c.queue.downloads[id]) {
      StoredLength(c.queue.downloads[id], Taken(c.handled, id));
    }
  }
}
