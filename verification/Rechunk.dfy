/** The transfer routine of the build without a staging buffer: segments of any length are cut into packets of one
    sector each, and read back out of them, with one running position in both. */
module Rechunk {
  import opened Block

  /** The payloads of a request's packets, one after the other, as one string of bytes. */
  function Stream(payloads: array2<Byte>): (bytes: seq<Byte>)
    reads payloads
    requires payloads.Length0 == MAX_REQUEST_SECTORS && payloads.Length1 == SECTOR_SIZE
    ensures |bytes| == MAX_REQUEST_BYTES
    ensures forall n | 0 <= n < MAX_REQUEST_BYTES :: bytes[n] == payloads[n / SECTOR_SIZE, n % SECTOR_SIZE]
  {
    seq(MAX_REQUEST_BYTES, n requires 0 <= n < MAX_REQUEST_BYTES reads payloads => payloads[n / SECTOR_SIZE,
        n % SECTOR_SIZE])
  }

  /** The payload of one packet. */
  function Payload(payloads: array2<Byte>, k: nat): (bytes: seq<Byte>)
    reads payloads
    requires payloads.Length0 == MAX_REQUEST_SECTORS && payloads.Length1 == SECTOR_SIZE && k < MAX_REQUEST_SECTORS
  {
    seq(SECTOR_SIZE, j requires 0 <= j < SECTOR_SIZE reads payloads => payloads[k, j])
  }

  /** Each packet carries its sector of the stream. */
  lemma PayloadIsSector(payloads: array2<Byte>, k: nat)
    requires payloads.Length0 == MAX_REQUEST_SECTORS && payloads.Length1 == SECTOR_SIZE && k < MAX_REQUEST_SECTORS
    ensures Payload(payloads, k) == Stream(payloads)[k * SECTOR_SIZE..(k + 1) * SECTOR_SIZE]
  {
    forall j | 0 <= j < SECTOR_SIZE
      ensures Payload(payloads, k)[j] == Stream(payloads)[k * SECTOR_SIZE..(k + 1) * SECTOR_SIZE][j]
    {
      Position(k, j);
    }
  }

  lemma Position(k: nat, j: nat)
    requires j < SECTOR_SIZE
    ensures (k * SECTOR_SIZE + j) / SECTOR_SIZE == k && (k * SECTOR_SIZE + j) % SECTOR_SIZE == j
  {
  }

  /** memcpy into one packet. */
  method CopyIn(payloads: array2<Byte>, k: nat, at: nat, piece: seq<Byte>)
    requires payloads.Length0 == MAX_REQUEST_SECTORS && payloads.Length1 == SECTOR_SIZE
    requires k < MAX_REQUEST_SECTORS && at + |piece| <= SECTOR_SIZE
    modifies payloads
    ensures Stream(payloads) == Splice(old(Stream(payloads)), k * SECTOR_SIZE + at, piece)
  {
    forall j | 0 <= j < |piece| {
      payloads[k, at + j] := piece[j];
    }
    ghost var from, before := k * SECTOR_SIZE + at, old(Stream(payloads));
    ghost var after := Splice(before, from, piece);
    forall n | 0 <= n < MAX_REQUEST_BYTES ensures Stream(payloads)[n] == after[n] {
      if from <= n < from + |piece| {
        Position(k, at + (n - from));
        assert after[from..from + |piece|][n - from] == piece[n - from];
      } else {
        assert n == n / SECTOR_SIZE * SECTOR_SIZE + n % SECTOR_SIZE;
      }
    }
  }

  /** memcpy out of one packet. */
  method CopyOut(payloads: array2<Byte>, k: nat, at: nat, size: nat) returns (piece: seq<Byte>)
    requires payloads.Length0 == MAX_REQUEST_SECTORS && payloads.Length1 == SECTOR_SIZE
    requires k < MAX_REQUEST_SECTORS && at + size <= SECTOR_SIZE
    ensures piece == Stream(payloads)[k * SECTOR_SIZE + at..k * SECTOR_SIZE + at + size]
  {
    piece := seq(size, j requires 0 <= j < size reads payloads => payloads[k, at + j]);
    ghost var expected := Stream(payloads)[k * SECTOR_SIZE + at..k * SECTOR_SIZE + at + size];
    forall j | 0 <= j < size ensures piece[j] == expected[j] {
      Position(k, at + j);
    }
  }

  /** Where the loop stands after `moved` bytes: `used` packets, the last with `remaining` bytes left from `at` on. */
  predicate Stands(moved: nat, used: nat, remaining: nat, at: nat) {
    used * SECTOR_SIZE == moved + remaining && remaining < SECTOR_SIZE
        && (remaining > 0 ==> at + remaining == SECTOR_SIZE)
  }

  /** One piece, which ends with the segment or with the packet. */
  method MovePiece(dir: Dir, segment: seq<Byte>, done: nat, piece: nat, payloads: array2<Byte>, k: nat, at: nat,
      page: seq<Byte>,
                   ghost before: seq<Byte>, ghost moved: nat) returns (longer: seq<Byte>)
    requires payloads.Length0 == MAX_REQUEST_SECTORS && payloads.Length1 == SECTOR_SIZE
    requires k < MAX_REQUEST_SECTORS && at + piece <= SECTOR_SIZE && k * SECTOR_SIZE + at == moved + done
    requires done + piece <= |segment| && Copied(dir, before, Stream(payloads), moved, segment, done, page)
    modifies payloads
    ensures Copied(dir, before, Stream(payloads), moved, segment, done + piece, longer)
  {
    hide Stream, Copied, Splice;
    CopiedMore(dir, before, Stream(payloads), moved, segment, done, page, piece);
    if dir == Write {
      longer := page;
      CopyIn(payloads, k, at, segment[done..done + piece]);
    } else {
      var bytes := CopyOut(payloads, k, at, piece);
      longer := page + bytes;
    }
  }

  /** One segment, piece by piece, taking a new packet whenever the last one is full. */
  method MoveSegment(dir: Dir, segment: seq<Byte>, payloads: array2<Byte>, ghost moved: nat, used: nat, remaining: nat,
      at: nat)
    returns (page: seq<Byte>, used': nat, remaining': nat, at': nat)
    requires payloads.Length0 == MAX_REQUEST_SECTORS && payloads.Length1 == SECTOR_SIZE
    requires Stands(moved, used, remaining, at) && moved + |segment| <= MAX_REQUEST_BYTES
    modifies payloads
    ensures Stands(moved + |segment|, used', remaining', at')
    ensures dir == Write ==> page == [] && Stream(payloads) == Splice(old(Stream(payloads)), moved, segment)
    ensures dir == Read ==>
              page == Stream(payloads)[moved..moved + |segment|] && Stream(payloads) == old(Stream(payloads))
  {
    hide Stream, Copied, Stands;
    ghost var before, done: nat := Stream(payloads), 0;
    CopiedNone(dir, before, moved, segment);
    var size: nat := |segment|;
    page, used', remaining', at' := [], used, remaining, at;
    while size > 0
      invariant done + size == |segment| && Stands(moved + done, used', remaining', at')
      invariant Copied(dir, before, Stream(payloads), moved, segment, done, page)
    {
      StandsNext(moved + done, used', remaining', at', size);
      if remaining' == 0 {
        used', remaining', at' := used' + 1, SECTOR_SIZE, 0;
      }
      var piece := if size <= remaining' then size else remaining';
      page := MovePiece(dir, segment, |segment| - size, piece, payloads, used' - 1, at', page, before, moved);
      at', remaining', size := at' + piece, remaining' - piece, size - piece;
      done := done + piece;
    }
    CopiedAll(dir, before, Stream(payloads), moved, segment, page);
  }

  /** The arithmetic of one turn: the next piece ends with the segment or with the packet. */
  lemma StandsNext(moved: nat, used: nat, remaining: nat, at: nat, size: nat)
    requires Stands(moved, used, remaining, at) && moved + size <= MAX_REQUEST_BYTES && size > 0
    ensures var u := if remaining == 0 then used + 1 else used;
            var r := if remaining == 0 then SECTOR_SIZE else remaining;
            var a := if remaining == 0 then 0 else at;
            var piece := if size <= r then size else r;
            && 0 < piece && 0 < u <= MAX_REQUEST_SECTORS && (u - 1) * SECTOR_SIZE + a == moved
            && a + piece <= SECTOR_SIZE
            && Stands(moved + piece, u, r - piece, a + piece)
  {
  }

  /** What has been moved after `done` bytes of a segment. */
  predicate Copied(dir: Dir, before: seq<Byte>, stream: seq<Byte>, moved: nat, segment: seq<Byte>, done: nat,
      page: seq<Byte>) {
    && done <= |segment| && moved + |segment| <= |before|
    && (dir == Write ==> page == [] && stream == Splice(before, moved, segment[..done]))
    && (dir == Read ==> page == before[moved..moved + done] && stream == before)
  }

  lemma CopiedNone(dir: Dir, before: seq<Byte>, moved: nat, segment: seq<Byte>)
    requires moved + |segment| <= |before|
    ensures Copied(dir, before, before, moved, segment, 0, [])
  {
    assert Splice(before, moved, segment[..0]) == before;
  }

  lemma CopiedMore(dir: Dir, before: seq<Byte>, stream: seq<Byte>, moved: nat, segment: seq<Byte>, done: nat,
      page: seq<Byte>, piece: nat)
    requires Copied(dir, before, stream, moved, segment, done, page) && done + piece <= |segment|
    ensures |stream| == |before|
    ensures dir == Write ==>
      Copied(dir, before, Splice(stream, moved + done, segment[done..done + piece]), moved, segment, done + piece, page)
    ensures dir == Read ==>
      Copied(dir, before, stream, moved, segment, done + piece, page + stream[moved + done..moved + done + piece])
  {
    if dir == Write {
      PieceMore(before, moved, segment, done, piece);
    }
  }

  lemma CopiedAll(dir: Dir, before: seq<Byte>, stream: seq<Byte>, moved: nat, segment: seq<Byte>, page: seq<Byte>)
    requires Copied(dir, before, stream, moved, segment, |segment|, page)
    ensures dir == Write ==> page == [] && stream == Splice(before, moved, segment)
    ensures dir == Read ==> page == stream[moved..moved + |segment|] && stream == before
  {
    assert segment[..|segment|] == segment;
  }

  lemma PieceMore(before: seq<Byte>, moved: nat, segment: seq<Byte>, done: nat, piece: nat)
    requires moved + |segment| <= |before| && done + piece <= |segment|
    ensures Splice(Splice(before, moved, segment[..done]), moved + done, segment[done..done + piece]) ==
            Splice(before, moved, segment[..done + piece])
  {
    hide Splice;
    SpliceStep(before, moved, segment[..done], segment[done..done + piece]);
    assert segment[..done] + segment[done..done + piece] == segment[..done + piece];
  }

  /** The whole request. Whatever the lengths of its segments, a write leaves in the packets the bytes that the staging
      buffer would hold, and a read fills its segments as from the staging buffer; both take exactly as many packets as
      there are sectors. */
  method Move(req: Request, payloads: array2<Byte>) returns (hang: bool, pages: seq<seq<Byte>>, used: nat)
    requires payloads.Length0 == MAX_REQUEST_SECTORS && payloads.Length1 == SECTOR_SIZE
    modifies payloads
    ensures hang <==> req.Bytes() > MAX_REQUEST_BYTES
    ensures !hang ==> used == req.Sectors()
    ensures !hang && req.dir == Write ==> Stream(payloads) == Splice(old(Stream(payloads)), 0, Flat(req.segments))
    ensures !hang && req.dir == Read ==>
      Stream(payloads) == old(Stream(payloads)) && pages == Scatter(Stream(payloads)[..req.Bytes()], req.segments)
  {
    hide Flat, Scatter, Stands, Stream;
    if req.Bytes() > MAX_REQUEST_BYTES {
      return true, [], 0;
    }
    ghost var before := Stream(payloads);
    hang, pages, used := false, [], 0;
    var remaining, at := 0, 0;
    ghost var moved: nat := 0;
    MovedNothing(before, req);
    for i := 0 to |req.segments|
      invariant Stands(moved, used, remaining, at)
      invariant MovedSoFar(before, Stream(payloads), req, i, moved, pages)
    {
      MovedMore(before, Stream(payloads), req, i, moved, pages);
      var page;
      page, used, remaining, at := MoveSegment(req.dir, req.segments[i], payloads, moved, used, remaining, at);
      moved := moved + |req.segments[i]|;
      if req.dir == Read {
        pages := pages + [page];
      }
    }
    MovedAll(before, Stream(payloads), req, moved, pages);
    StandsAtEnd(moved, used, remaining, at);
  }

  /** What has been moved after `i` segments. */
  predicate MovedSoFar(before: seq<Byte>, stream: seq<Byte>, req: Request, i: nat, moved: nat, pages: seq<seq<Byte>>) {
    && i <= |req.segments| && moved == |Flat(req.segments[..i])| <= req.Bytes() <= |before|
    && (req.dir == Write ==> stream == Splice(before, 0, Flat(req.segments[..i])))
    && (req.dir == Read ==> stream == before && pages == Scatter(before[..moved], req.segments[..i]))
  }

  lemma MovedNothing(before: seq<Byte>, req: Request)
    requires req.Bytes() <= |before|
    ensures MovedSoFar(before, before, req, 0, 0, []) && Stands(0, 0, 0, 0)
  {
    assert Splice(before, 0, []) == before;
  }

  lemma MovedMore(before: seq<Byte>, stream: seq<Byte>, req: Request, i: nat, moved: nat, pages: seq<seq<Byte>>)
    requires MovedSoFar(before, stream, req, i, moved, pages) && i < |req.segments|
    ensures moved + |req.segments[i]| <= req.Bytes() && |stream| == |before|
    ensures req.dir == Write ==>
      MovedSoFar(before, Splice(stream, moved, req.segments[i]), req, i + 1, moved + |req.segments[i]|, pages)
    ensures req.dir == Read ==>
      MovedSoFar(before, stream, req, i + 1, moved + |req.segments[i]|,
          pages + [before[moved..moved + |req.segments[i]|]])
  {
    hide Flat, Scatter, Splice;
    FlatStep(req.segments, i);
    FlatPrefix(req.segments, i + 1);
    if req.dir == Write {
      SpliceStep(before, 0, Flat(req.segments[..i]), req.segments[i]);
    } else {
      ScatterStep(before, req.segments, i);
    }
  }

  lemma MovedAll(before: seq<Byte>, stream: seq<Byte>, req: Request, moved: nat, pages: seq<seq<Byte>>)
    requires MovedSoFar(before, stream, req, |req.segments|, moved, pages)
    ensures moved == req.Bytes()
    ensures req.dir == Write ==> stream == Splice(before, 0, Flat(req.segments))
    ensures req.dir == Read ==> stream == before && pages == Scatter(stream[..req.Bytes()], req.segments)
  {
    hide Flat, Scatter, Splice;
    assert req.segments[..|req.segments|] == req.segments;
  }

  lemma StandsAtEnd(moved: nat, used: nat, remaining: nat, at: nat)
    requires Stands(moved, used, remaining, at)
    ensures used == (moved + SECTOR_SIZE - 1) / SECTOR_SIZE
  {
  }

  /** The packets of a write carry, sector by sector, what the staging buffer would have sent, whatever either held
      before. */
  lemma SamePackets(before: seq<Byte>, staging: seq<Byte>, req: Request, k: nat)
    requires req.WellFormed() && |before| == |staging| == MAX_REQUEST_BYTES && k < req.Sectors()
    ensures (k + 1) * SECTOR_SIZE <= req.Bytes()
    ensures Splice(before, 0, Flat(req.segments))[k * SECTOR_SIZE..(k + 1) * SECTOR_SIZE] ==
            Splice(staging, 0, Flat(req.segments))[k * SECTOR_SIZE..(k + 1) * SECTOR_SIZE]
  {
    hide Flat;
    var data := Flat(req.segments);
    SliceOfSplice(before, data, k * SECTOR_SIZE, (k + 1) * SECTOR_SIZE);
    SliceOfSplice(staging, data, k * SECTOR_SIZE, (k + 1) * SECTOR_SIZE);
  }

  lemma SliceOfSplice(target: seq<Byte>, data: seq<Byte>, from: nat, to: nat)
    requires |data| <= |target| && from <= to <= |data|
    ensures Splice(target, 0, data)[from..to] == data[from..to]
  {
  }

  /** Written into packets and read back with segments of other lengths, the bytes are the same. */
  lemma RoundTrip(before: seq<Byte>, written: seq<seq<Byte>>, shape: seq<seq<Byte>>)
    requires |Flat(written)| == |Flat(shape)| <= |before|
    ensures Flat(Scatter(Splice(before, 0, Flat(written))[..|Flat(shape)|], shape)) == Flat(written)
  {
    hide Flat, Scatter, Splice;
    var stream := Splice(before, 0, Flat(written));
    assert stream[..|Flat(shape)|] == stream[0..|Flat(written)|];
  }
}
