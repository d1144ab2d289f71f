/** The dialer's queue while packs are transferred: the reader and one goroutine for every pack announced so far. */
module SessionTransfer {
  import opened Wire
  import opened Packs
  import opened Session
  import opened SessionScript
  import opened SessionClient

  // ------------------------------------------------------------- fetched so far

  /** The first k chunks of the j-th pack. */
  function Prefix(cfg: Config, j: nat, k: nat): Bytes
    requires cfg.chunk > 0 && j < |cfg.order| && k <= Count(cfg, j)
  {
    Concat(Pieces(cfg.order[j].content, cfg.chunk)[..k])
  }

  lemma {:induction false} ConcatSnoc(pieces: seq<Bytes>, k: nat)
    requires k < |pieces|
    ensures Concat(pieces[..k + 1]) == Concat(pieces[..k]) + pieces[k]
  {
    if k == 0 {
      assert pieces[..1] == [pieces[0]] && pieces[..1][1..] == [];
    } else {
      ConcatSnoc(pieces[1..], k - 1);
      assert pieces[..k + 1][1..] == pieces[1..][..k] && pieces[..k][1..] == pieces[1..][..k - 1];
      assert pieces[0] + (Concat(pieces[1..][..k - 1]) + pieces[k]) == pieces[0] + Concat(pieces[1..][..k - 1]) + pieces[k];
    }
  }

  lemma {:induction false} PrefixLength(cfg: Config, j: nat, k: nat)
    requires Transferable(cfg) && j < |cfg.order| && k < Count(cfg, j)
    ensures |Prefix(cfg, j, k)| == k * cfg.chunk
  {
    if k > 0 {
      PrefixLength(cfg, j, k - 1);
      ConcatSnoc(Pieces(cfg.order[j].content, cfg.chunk), k - 1);
      ChunkEnds(cfg, j, k - 1);
      assert k * cfg.chunk == (k - 1) * cfg.chunk + cfg.chunk;
    }
  }

  lemma PrefixGrows(cfg: Config, j: nat, k: nat)
    requires Transferable(cfg) && j < |cfg.order| && k < Count(cfg, j)
    ensures Prefix(cfg, j, k + 1) == Prefix(cfg, j, k) + Chunk(cfg, j, k)
  {
    ConcatSnoc(Pieces(cfg.order[j].content, cfg.chunk), k);
  }

  lemma PrefixWhole(cfg: Config, j: nat)
    requires Transferable(cfg) && j < |cfg.order|
    ensures Prefix(cfg, j, Count(cfg, j)) == cfg.order[j].content
  {
    var pieces := Pieces(cfg.order[j].content, cfg.chunk);
    assert pieces[..|pieces|] == pieces;
    PiecesConcat(cfg.order[j].content, cfg.chunk);
  }

  /**
   * The goroutine of the j-th pack, once the reader has handled h of its chunks. The buffer holds exactly the chunks that
   * were appended; pending says that the reader is still to hand over the last one.
   */
  predicate Fetching(cfg: Config, d: Download, j: nat, h: nat, pending: bool)
    requires Transferable(cfg) && j < |cfg.order|
  {
    && h <= Count(cfg, j)
    && d.size == |cfg.order[j].content| && d.chunk == cfg.chunk && d.index == h
    && match d.at
       case Asking(k) => !pending && k == h && d.buf == Prefix(cfg, j, h)
       case Listening(k) =>
         (if pending then k + 1 == h else k == h < Count(cfg, j)) && k < Count(cfg, j) && d.buf == Prefix(cfg, j, k)
       case Storing(k, frag) =>
         !pending && k + 1 == h && k < Count(cfg, j) && frag == Chunk(cfg, j, k) && d.buf == Prefix(cfg, j, k)
       case Finishing => !pending && h == Count(cfg, j) && d.buf == cfg.order[j].content
       case Gone => !pending && h == Count(cfg, j)
  }

  // ------------------------------------------------------------- packs not yet there

  predicate Arrived(downloads: map<nat, Download>, id: nat)
  {
    id in downloads && downloads[id].at.Gone?
  }

  /** Packs not announced yet, and announced ones not complete yet, among the first n of the order. */
  function Left(cfg: Config, downloads: map<nat, Download>, n: nat): nat
    requires n <= |cfg.order|
  {
    if n == 0 then 0 else Left(cfg, downloads, n - 1) + if Arrived(downloads, cfg.order[n - 1].id) then 0 else 1
  }

  lemma {:induction false} LeftSame(cfg: Config, a: map<nat, Download>, b: map<nat, Download>, n: nat)
    requires n <= |cfg.order|
    requires forall j | 0 <= j < n :: Arrived(a, cfg.order[j].id) <==> Arrived(b, cfg.order[j].id)
    ensures Left(cfg, a, n) == Left(cfg, b, n)
  {
    if n > 0 {
      LeftSame(cfg, a, b, n - 1);
    }
  }

  lemma {:induction false} LeftFalls(cfg: Config, a: map<nat, Download>, d: Download, i: nat, n: nat)
    requires Transferable(cfg) && i < n <= |cfg.order| && !Arrived(a, cfg.order[i].id) && d.at.Gone?
    ensures Left(cfg, a[cfg.order[i].id := d], n) == Left(cfg, a, n) - 1
  {
    if n - 1 == i {
      LeftSame(cfg, a[cfg.order[i].id := d], a, n - 1);
    } else {
      LeftFalls(cfg, a, d, i, n - 1);
    }
  }

  lemma {:induction false} LeftZero(cfg: Config, a: map<nat, Download>, n: nat)
    requires n <= |cfg.order|
    ensures Left(cfg, a, n) == 0 <==> forall j | 0 <= j < n :: Arrived(a, cfg.order[j].id)
  {
    if n > 0 {
      LeftZero(cfg, a, n - 1);
    }
  }

  lemma {:induction false} LeftAll(cfg: Config, n: nat)
    requires n <= |cfg.order|
    ensures Left(cfg, map[], n) == n
  {
    if n > 0 {
      LeftAll(cfg, n - 1);
    }
  }

  // ------------------------------------------------------------------ the queue

  /** The packs held: what was cached, and every pack that is done. */
  predicate Holding(cfg: Config, q: Queue)
  {
    var s := Sort(cfg.packs, cfg.verdicts);
    && q.ignored == s.ignored
    && (forall p | p in s.cached :: p in q.held)
    && (forall p | p in q.held :: p in s.cached || p in cfg.order)
    && (forall j | 0 <= j < |cfg.order| && Arrived(q.downloads, cfg.order[j].id) :: cfg.order[j] in q.held)
    && |q.held| + q.amount == |s.cached| + |cfg.order|
  }

  /** The first i + 1 packs are announced, h chunks of the last of them are handled. */
  predicate Tracks(cfg: Config, downloads: map<nat, Download>, i: nat, h: nat, pending: bool)
    requires Transferable(cfg)
  {
    && i < |cfg.order|
    && (forall j | 0 <= j < |cfg.order| :: cfg.order[j].id in downloads <==> j <= i)
    && (forall id | id in downloads :: id in IdsFrom(cfg, 0))
    && (forall j | 0 <= j < i :: Fetching(cfg, downloads[cfg.order[j].id], j, Count(cfg, j), false))
    && Fetching(cfg, downloads[cfg.order[i].id], i, h, pending)
  }

  predicate Transferring(cfg: Config, q: Queue, i: nat, h: nat, pending: bool)
    requires Transferable(cfg)
  {
    && Tracks(cfg, q.downloads, i, h, pending)
    && q.announced == IdsFrom(cfg, i + 1)
    && q.amount == Left(cfg, q.downloads, |cfg.order|)
    && Holding(cfg, q)
  }

  lemma TracksMove(cfg: Config, downloads: map<nat, Download>, i: nat, h: nat, pending: bool,
                   j: nat, d: Download, h': nat, pending': bool)
    requires Transferable(cfg) && Tracks(cfg, downloads, i, h, pending) && j <= i
    requires if j == i then Fetching(cfg, d, j, h', pending')
             else h' == h && pending' == pending && Fetching(cfg, d, j, Count(cfg, j), false)
    ensures Tracks(cfg, downloads[cfg.order[j].id := d], i, h', pending')
  {
    assert cfg.order[j].id in IdsFrom(cfg, 0);
  }

  /** One download moves on; nothing else changes, and it does not complete. */
  lemma DownloadMoves(cfg: Config, q: Queue, i: nat, h: nat, pending: bool, j: nat, d: Download, h': nat, pending': bool)
    requires Transferable(cfg)
    requires Transferring(cfg, q, i, h, pending) && j <= i
    requires d.at.Gone? <==> q.downloads[cfg.order[j].id].at.Gone?
    requires if j == i then Fetching(cfg, d, j, h', pending')
             else h' == h && pending' == pending && Fetching(cfg, d, j, Count(cfg, j), false)
    ensures Transferring(cfg, At(q, cfg.order[j].id, d), i, h', pending')
  {
    var id := cfg.order[j].id;
    var q' := At(q, id, d);
    TracksMove(cfg, q.downloads, i, h, pending, j, d, h', pending');
    LeftSame(cfg, q.downloads, q'.downloads, |cfg.order|);
  }

  lemma FinishReads(cfg: Config, q: Queue, j: nat)
    requires Transferable(cfg) && Agreed(cfg) && j < |cfg.order| && cfg.order[j].id in q.downloads
    requires var d := q.downloads[cfg.order[j].id]; d.buf == cfg.order[j].content && d.size == |d.buf|
    ensures var id := cfg.order[j].id;
      Finish(cfg, q, id) == At(q, id, q.downloads[id].(at := Gone)).(
        amount := q.amount - 1, held := q.held + [cfg.order[j]], rest := q.rest + if q.amount == 1 then ANNOUNCE else [])
  {
    assert ReadPack(cfg.packs, cfg.order[j].content) == Some(cfg.order[j]);
  }

  lemma HoldingGrows(cfg: Config, q: Queue, q': Queue, j: nat)
    requires Transferable(cfg) && j < |cfg.order| && Holding(cfg, q)
    requires q'.ignored == q.ignored && q'.held == q.held + [cfg.order[j]] && q'.amount == q.amount - 1
    requires forall k | 0 <= k < |cfg.order| && k != j ::
      Arrived(q'.downloads, cfg.order[k].id) ==> Arrived(q.downloads, cfg.order[k].id)
    ensures Holding(cfg, q')
  {
    forall k | 0 <= k < |cfg.order| && Arrived(q'.downloads, cfg.order[k].id) ensures cfg.order[k] in q'.held {
      if k == j { assert q'.held[|q.held|] == cfg.order[j]; }
    }
  }

  /** A download completes: one pack less is left. */
  lemma DownloadFinishes(cfg: Config, q: Queue, i: nat, h: nat, pending: bool, j: nat)
    requires Transferable(cfg) && Agreed(cfg) && Transferring(cfg, q, i, h, pending) && j <= i
    requires q.downloads[cfg.order[j].id].at.Finishing?
    ensures var q' := Finish(cfg, q, cfg.order[j].id);
      && Transferring(cfg, q', i, h, pending) && q'.amount == q.amount - 1
      && q'.rest == q.rest + (if q'.amount == 0 then ANNOUNCE else [])
  {
    var id := cfg.order[j].id;
    var d := q.downloads[id];
    FinishReads(cfg, q, j);
    var q' := Finish(cfg, q, id);
    LeftFalls(cfg, q.downloads, d.(at := Gone), j, |cfg.order|);
    HoldingGrows(cfg, q, q', j);
    TracksMove(cfg, q.downloads, i, h, pending, j, d.(at := Gone), h, pending);
  }

  // --------------------------------------------------------- the reader's handlers

  /** The dialer starts to transfer with the first data info. */
  lemma HandlesFirstInfo(cfg: Config, q: Queue)
    requires Transferable(cfg) && Agreed(cfg) && cfg.order != [] && Announced(cfg, q)
    ensures var p := cfg.order[0]; var h := HandleDataInfo(q, p.id, cfg.chunk, |p.content|);
      h.Does? && h.ops == [Flush] && h.q.rest == [] && Transferring(cfg, h.q, 0, 0, false)
  {
    var p := cfg.order[0];
    var d := Download.Download(|p.content|, cfg.chunk, 0, [], Asking(0));
    assert p.id in IdsFrom(cfg, 0);
    assert IdsFrom(cfg, 0) - {p.id} == IdsFrom(cfg, 1);
    LeftAll(cfg, |cfg.order|);
    LeftSame(cfg, map[], map[p.id := d], |cfg.order|);
    assert q.downloads[p.id := d] == map[p.id := d];
    assert Prefix(cfg, 0, 0) == [];
  }

  lemma TracksStart(cfg: Config, downloads: map<nat, Download>, i: nat)
    requires Transferable(cfg) && i + 1 < |cfg.order| && Tracks(cfg, downloads, i, Count(cfg, i), false)
    ensures var p := cfg.order[i + 1];
      Tracks(cfg, downloads[p.id := Download.Download(|p.content|, cfg.chunk, 0, [], Asking(0))], i + 1, 0, false)
  {
    assert cfg.order[i + 1].id in IdsFrom(cfg, 0);
    assert Prefix(cfg, i + 1, 0) == [];
  }

  lemma HandlesInfo(cfg: Config, q: Queue, i: nat)
    requires Transferable(cfg) && Agreed(cfg) && i + 1 < |cfg.order|
    requires Transferring(cfg, q, i, Count(cfg, i), false)
    ensures var p := cfg.order[i + 1]; var h := HandleDataInfo(q, p.id, cfg.chunk, |p.content|);
      h.Does? && h.ops == [Flush] && h.q.rest == q.rest && h.q.amount == q.amount > 0
      && Transferring(cfg, h.q, i + 1, 0, false)
  {
    var p := cfg.order[i + 1];
    var d := Download.Download(|p.content|, cfg.chunk, 0, [], Asking(0));
    assert p.id in IdsFrom(cfg, i + 1);
    assert IdsFrom(cfg, i + 1) - {p.id} == IdsFrom(cfg, i + 2);
    assert !Arrived(q.downloads, p.id);
    LeftZero(cfg, q.downloads, |cfg.order|);
    LeftSame(cfg, q.downloads, q.downloads[p.id := d], |cfg.order|);
    TracksStart(cfg, q.downloads, i);
  }

  /** A chunk arrives while the goroutine of its pack listens for it: the buffer holds the chunks before it. */
  lemma HandlesChunkData(cfg: Config, q: Queue, i: nat, h: nat)
    requires Transferable(cfg) && Agreed(cfg) && Transferring(cfg, q, i, h, false)
    requires q.downloads[cfg.order[i].id].at == Listening(h)
    ensures var r := HandleChunkData(q, cfg.order[i].id, h, Chunk(cfg, i, h));
      r.Does? && r.ops == [Deliver(cfg.order[i].id, Chunk(cfg, i, h)), Flush]
      && r.q.rest == q.rest && r.q.amount == q.amount
      && Transferring(cfg, r.q, i, h + 1, true) && Listens(r.q, cfg.order[i].id)
  {
    var id := cfg.order[i].id;
    var d := q.downloads[id];
    PrefixLength(cfg, i, h);
    ChunkEnds(cfg, i, h);
    assert id in IdsFrom(cfg, 0);
    DownloadMoves(cfg, q, i, h, false, i, d.(index := h + 1), h + 1, true);
  }
}
