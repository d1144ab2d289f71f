/** The steps of the download goroutines keep the invariant. */
module SessionFetchSteps {
  import opened Wire
  import opened Packs
  import opened Session
  import opened SessionScript
  import opened SessionSettle
  import opened SessionSide
  import opened SessionServer
  import opened SessionClient
  import opened SessionTransfer
  import opened SessionInvariant
  import opened SessionTransferSteps

  /** Outside the transfer no download goroutine has anything left to do. */
  lemma FetchingTransfers(cfg: Config, c: Conn, y: Pos, x: Pos, id: nat)
    requires ValidConfig(cfg) && ClientOk(cfg, c, y, x) && (CanFetch(c.queue, id) || CanRest(c))
    ensures Transfers(y)
  {
  }

  lemma WhichPack(cfg: Config, downloads: map<nat, Download>, i: nat, h: nat, pending: bool, id: nat) returns (j: nat)
    requires Transferable(cfg) && Tracks(cfg, downloads, i, h, pending) && id in downloads
    ensures j <= i && cfg.order[j].id == id
    ensures Fetching(cfg, downloads[id], j, if j == i then h else Count(cfg, j), j == i && pending)
  {
    assert id in IdsFrom(cfg, 0);
    j :| 0 <= j < |cfg.order| && cfg.order[j].id == id;
  }

  lemma QueueMoves(cfg: Config, c: Conn, q: Queue, y: Pos, x: Pos)
    requires ValidConfig(cfg) && On(cfg, y) && Transfers(y) && ClientOk(cfg, c, y, x)
    requires Transferring(cfg, q, y.i, PartOf(y), |c.todo| == 2) && RestOk(cfg, c.gate, q, y.i, PartOf(y), x)
    ensures ClientOk(cfg, c.(queue := q), y, x)
  {
    TransferIs(cfg, c, c.(queue := q), y, x);
  }

  /** Where the goroutine of a pack gets by itself, apart from asking for a chunk and from completing. */
  lemma FetchMoves(cfg: Config, q: Queue, i: nat, h: nat, pending: bool, j: nat) returns (d: Download)
    requires Transferable(cfg) && Transferring(cfg, q, i, h, pending) && j <= i
    requires var at := q.downloads[cfg.order[j].id].at; at.Storing? || (at.Asking? && at.k >= Count(cfg, j))
    ensures var was := q.downloads[cfg.order[j].id];
      d == if was.at.Storing? then was.(buf := was.buf + was.at.frag, at := Asking(was.at.k + 1)) else was.(at := Finishing)
    ensures Transferring(cfg, At(q, cfg.order[j].id, d), i, h, pending)
  {
    var was := q.downloads[cfg.order[j].id];
    var k := if j == i then h else Count(cfg, j);
    if was.at.Storing? {
      d := was.(buf := was.buf + was.at.frag, at := Asking(was.at.k + 1));
      PrefixGrows(cfg, j, was.at.k);
    } else {
      d := was.(at := Finishing);
      PrefixWhole(cfg, j);
    }
    DownloadMoves(cfg, q, i, h, pending, j, d, h, pending);
  }

  lemma FetchKeepsRest(cfg: Config, g: Gate, q: Queue, i: nat, h: nat, x: Pos, j: nat, d: Download)
    requires Transferable(cfg) && i < |cfg.order| && j <= i && cfg.order[i].id in q.downloads
    requires RestOk(cfg, g, q, i, h, x)
    requires j == i ==> !q.downloads[cfg.order[i].id].at.Listening? && !d.at.Listening?
    ensures RestOk(cfg, g, At(q, cfg.order[j].id, d), i, h, x)
  {
  }

  /** The goroutine asks for the next chunk of its pack. */
  lemma Listen(cfg: Config, q: Queue, i: nat, h: nat, pending: bool, j: nat, k: nat)
    requires Transferable(cfg) && Transferring(cfg, q, i, h, pending) && j <= i
    requires q.downloads[cfg.order[j].id].at == Asking(k) && k < Count(cfg, j)
    ensures j == i && k == h && !pending && q.amount > 0
    ensures var id := cfg.order[i].id; Transferring(cfg, At(q, id, q.downloads[id].(at := Listening(h))), i, h, false)
  {
    assert j == i;
    if q.amount == 0 {
      NoneLeft(cfg, q, i, h, pending);
      assert false;
    }
    DownloadMoves(cfg, q, i, h, false, i, q.downloads[cfg.order[i].id].(at := Listening(h)), h, false);
  }

  /** That request is the next packet of the dialer's script. */
  lemma NextRequest(cfg: Config, i: nat, h: nat, x: Pos)
    requires Transferable(cfg) && i < |cfg.order| && h < Count(cfg, i) && On(cfg, x) && x == Asked(cfg, i, h, Asking(h))
    ensures Next(cfg, x) == Turn(ChunkRequest(cfg.order[i].id, h), XRequest(i, h))
  {
    if h == 0 && i > 0 { CountPositive(cfg, i - 1); }
  }

  lemma FetchPuts(cfg: Config, c: Conn, y: Pos, x: Pos, j: nat, k: nat)
    requires ValidConfig(cfg) && On(cfg, y) && Transfers(y) && ClientOk(cfg, c, y, x) && j <= y.i
    requires c.queue.downloads[cfg.order[j].id].at == Asking(k) && k < Count(cfg, j)
    ensures var id := cfg.order[j].id;
      var q := At(c.queue, id, c.queue.downloads[id].(at := Listening(k)));
      var c' := Perform(c.(queue := q), Put(ChunkRequest(id, k)));
      ClientOk(cfg, c', y, XRequest(j, k)) && Proceeds(cfg, c, c', x, XRequest(j, k))
  {
    hide Ordered, Path, Holding, Accepts;
    var id := cfg.order[j].id;
    Listen(cfg, c.queue, y.i, PartOf(y), |c.todo| == 2, j, k);
    NextRequest(cfg, y.i, k, x);
    var q := At(c.queue, id, c.queue.downloads[id].(at := Listening(k)));
    var c' := Perform(c.(queue := q), Put(ChunkRequest(id, k)));
    RequestBuffered(cfg, c, c', id, k);
    TransferIs(cfg, c, c', y, XRequest(j, k));
  }

  lemma RequestBuffered(cfg: Config, c: Conn, c': Conn, id: nat, k: nat)
    requires WellBuffered(cfg, c) && c.gate.enc == FinalMode(cfg) && c'.gate == c.gate
    requires c'.buffer == c.buffer + [ChunkRequest(id, k)]
    ensures WellBuffered(cfg, c')
  {
  }

  /** A download completes; the goroutine that sees no pack left is to ask for the stack. */
  lemma FetchFinishes(cfg: Config, c: Conn, y: Pos, x: Pos, j: nat)
    requires ValidConfig(cfg) && On(cfg, y) && Transfers(y) && ClientOk(cfg, c, y, x) && j <= y.i
    requires c.queue.downloads[cfg.order[j].id].at.Finishing?
    ensures ClientOk(cfg, c.(queue := Finish(cfg, c.queue, cfg.order[j].id)), y, x)
  {
    hide Has, Idle, Ids, IdsFrom, Left, Lookup;
    var i, h, pending := y.i, PartOf(y), |c.todo| == 2;
    if c.queue.amount == 0 {
      NoneLeft(cfg, c.queue, i, h, pending);
      assert false;
    }
    DownloadFinishes(cfg, c.queue, i, h, pending, j);
    var q := Finish(cfg, c.queue, cfg.order[j].id);
    FinishRests(cfg, c.gate, c.queue, q, i, h, pending, x, j);
    QueueMoves(cfg, c, q, y, x);
  }

  lemma FinishRests(cfg: Config, g: Gate, q: Queue, q': Queue, i: nat, h: nat, pending: bool, x: Pos, j: nat)
    requires ValidConfig(cfg) && Transferring(cfg, q', i, h, pending) && cfg.order[i].id in q.downloads
    requires q.amount > 0 && q.rest == [] && g.expected == FETCHING
    requires x == Asked(cfg, i, h, q.downloads[cfg.order[i].id].at)
    requires q'.amount == q.amount - 1 && q'.rest == (if q'.amount == 0 then ANNOUNCE else [])
    requires j <= i && (j == i ==> q.downloads[cfg.order[i].id].at.Finishing?)
    requires j != i ==> q'.downloads[cfg.order[i].id] == q.downloads[cfg.order[i].id]
    requires q'.downloads[cfg.order[j].id].at.Gone?
    ensures RestOk(cfg, g, q', i, h, x)
  {
    CountPositive(cfg, i);
    if q'.amount == 0 {
      NoneLeft(cfg, q', i, h, pending);
      assert Arrived(q'.downloads, cfg.order[i].id);
    }
  }

  // ----------------------------------------------------------------- any of them

  lemma ChunksCounted(cfg: Config, d: Download, j: nat, h: nat, pending: bool)
    requires Transferable(cfg) && j < |cfg.order| && Fetching(cfg, d, j, h, pending)
    ensures d.chunk > 0 && Chunks(d.size, d.chunk) == Count(cfg, j)
  {
    PiecesAreReads(cfg.order[j].content, cfg.chunk);
  }

  /** Any step of the goroutine of a download. */
  lemma Fetches(cfg: Config, c: Conn, y: Pos, x: Pos, id: nat) returns (x': Pos)
    requires ValidConfig(cfg) && ClientOk(cfg, c, y, x) && CanFetch(c.queue, id)
    ensures ClientOk(cfg, FetchStep(cfg, c, id), y, x') && Proceeds(cfg, c, FetchStep(cfg, c, id), x, x')
  {
    FetchingTransfers(cfg, c, y, x, id);
    var i, h, pending := y.i, PartOf(y), |c.todo| == 2;
    var j := WhichPack(cfg, c.queue.downloads, i, h, pending, id);
    var d := c.queue.downloads[id];
    ChunksCounted(cfg, d, j, if j == i then h else Count(cfg, j), j == i && pending);
    if d.at.Finishing? {
      FetchFinishes(cfg, c, y, x, j);
      x' := x;
    } else if d.at.Asking? && d.at.k < Count(cfg, j) {
      FetchPuts(cfg, c, y, x, j, d.at.k);
      x' := XRequest(j, d.at.k);
    } else {
      FetchWorks(cfg, c, y, x, j, id);
      x' := x;
    }
  }

  lemma FetchWorks(cfg: Config, c: Conn, y: Pos, x: Pos, j: nat, id: nat)
    requires CanFetch(c.queue, id)
    requires c.queue.downloads[id].at.Storing? || c.queue.downloads[id].at.Asking?
    requires c.queue.downloads[id].at.Asking? ==>
      c.queue.downloads[id].at.k >= Chunks(c.queue.downloads[id].size, c.queue.downloads[id].chunk)
    requires ValidConfig(cfg) && On(cfg, y) && Transfers(y) && j <= y.i && id == cfg.order[j].id
    requires c.queue.downloads[id].at.Asking? ==> c.queue.downloads[id].at.k >= Count(cfg, j)
    requires ClientOk(cfg, c, y, x)
    ensures ClientOk(cfg, FetchStep(cfg, c, id), y, x) && Proceeds(cfg, c, FetchStep(cfg, c, id), x, x)
  {
    hide Ordered, Path, Agreed, ClientOk, Tracks, Holding, RestOk;
    InTransfer(cfg, c, y, x);
    var d' := FetchMoves(cfg, c.queue, y.i, PartOf(y), |c.todo| == 2, j);
    FetchKeepsRest(cfg, c.gate, c.queue, y.i, PartOf(y), x, j, d');
    QueueMoves(cfg, c, At(c.queue, id, d'), y, x);
    WorkIsMove(cfg, c, id, d');
  }

  lemma InTransfer(cfg: Config, c: Conn, y: Pos, x: Pos)
    requires ValidConfig(cfg) && On(cfg, y) && Transfers(y) && ClientOk(cfg, c, y, x)
    ensures Transferring(cfg, c.queue, y.i, PartOf(y), |c.todo| == 2)
    ensures cfg.order[y.i].id in c.queue.downloads
    ensures RestOk(cfg, c.gate, c.queue, y.i, PartOf(y), x)
  {
  }

  lemma WorkIsMove(cfg: Config, c: Conn, id: nat, d': Download)
    requires CanFetch(c.queue, id)
    requires var d := c.queue.downloads[id];
      if d.at.Storing? then d' == d.(buf := d.buf + d.at.frag, at := Asking(d.at.k + 1))
      else d.at.Asking? && d.at.k >= Chunks(d.size, d.chunk) && d' == d.(at := Finishing)
    ensures FetchStep(cfg, c, id) == c.(queue := At(c.queue, id, d'))
  {
  }

  /** The goroutine that saw no pack left says what it expects, and then asks for the stack. */
  lemma Rests(cfg: Config, c: Conn, y: Pos, x: Pos) returns (x': Pos)
    requires ValidConfig(cfg) && ClientOk(cfg, c, y, x) && CanRest(c)
    ensures ClientOk(cfg, RestStep(c), y, x') && Proceeds(cfg, c, RestStep(c), x, x')
  {
    FetchingTransfers(cfg, c, y, x, 0);
    RestKeeps(cfg, c.queue, y.i, PartOf(y), |c.todo| == 2);
    if c.queue.rest == ANNOUNCE {
      RestExpects(cfg, c, y, x);
      x' := x;
    } else {
      RestPuts(cfg, c, y, x);
      x' := XAll;
    }
  }

  lemma RestExpects(cfg: Config, c: Conn, y: Pos, x: Pos)
    requires ValidConfig(cfg) && On(cfg, y) && Transfers(y) && ClientOk(cfg, c, y, x) && c.queue.rest == ANNOUNCE
    requires Transferring(cfg, c.queue.(rest := c.queue.rest[1..]), y.i, PartOf(y), |c.todo| == 2)
    ensures ClientOk(cfg, RestStep(c), y, x) && Proceeds(cfg, c, RestStep(c), x, x)
  {
    TransferIs(cfg, c, RestStep(c), y, x);
  }

  lemma RestPuts(cfg: Config, c: Conn, y: Pos, x: Pos)
    requires ValidConfig(cfg) && On(cfg, y) && Transfers(y) && ClientOk(cfg, c, y, x)
    requires c.queue.rest != [] && c.queue.rest != ANNOUNCE
    requires Transferring(cfg, c.queue.(rest := c.queue.rest[1..]), y.i, PartOf(y), |c.todo| == 2)
    ensures ClientOk(cfg, RestStep(c), y, XAll) && Proceeds(cfg, c, RestStep(c), x, XAll)
  {
    hide Count, Fetching, Idle, Ids, IdsFrom, Min;
    assert c.queue.rest == [Put(AllPacksDownloaded)];
    CountPositive(cfg, |cfg.order| - 1);
    TransferIs(cfg, c, RestStep(c), y, XAll);
  }

  lemma RestKeeps(cfg: Config, q: Queue, i: nat, h: nat, pending: bool)
    requires Transferable(cfg) && Transferring(cfg, q, i, h, pending) && q.rest != []
    ensures Transferring(cfg, q.(rest := q.rest[1..]), i, h, pending)
  {
  }
}
