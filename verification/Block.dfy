/** What the two drivers see of the block layer: requests, their scattered buffers, and a disk as a byte string. */
module Block {

  datatype Option<+T> = None | Some(value: T)

  newtype Byte = x: int | 0 <= x < 256

  const SECTOR_SIZE: nat := 512
  const MAX_REQUEST_SECTORS: nat := 128
  const MAX_REQUEST_BYTES: nat := MAX_REQUEST_SECTORS * SECTOR_SIZE
  const MAX_CHANNELS: nat := 8
  const DISK_BYTES: nat := 0x1900_0000

  datatype Dir = Read | Write

  /** `tag` tells one request of a run from another; `segments` are the memory pieces it was split into. */
  datatype Request = Request(tag: nat, dir: Dir, pos: nat, segments: seq<seq<Byte>>) {

    function Bytes(): nat {
      |Flat(segments)|
    }

    function Offset(): nat {
      pos * SECTOR_SIZE
    }

    function Sectors(): nat {
      (Bytes() + SECTOR_SIZE - 1) / SECTOR_SIZE
    }

    /** The promise of the block layer: whole sectors, at most 128 of them, inside the capacity. */
    predicate WellFormed() {
      && Bytes() % SECTOR_SIZE == 0
      && Bytes() <= MAX_REQUEST_BYTES
      && Offset() + Bytes() <= DISK_BYTES
    }
  }

  /** The bytes of a list of segments, in order. */
  function Flat(segs: seq<seq<Byte>>): seq<Byte> {
    if |segs| == 0 then [] else Flat(segs[..|segs| - 1]) + segs[|segs| - 1]
  }

  /** `data` cut into pieces of the lengths of `shape`. */
  function Scatter(data: seq<Byte>, shape: seq<seq<Byte>>): (pages: seq<seq<Byte>>)
    requires |data| == |Flat(shape)|
    ensures |pages| == |shape|
    ensures forall i | 0 <= i < |shape| :: |pages[i]| == |shape[i]|
    ensures Flat(pages) == data
    decreases |shape|
  {
    if |shape| == 0 then
      []
    else
      var front := shape[..|shape| - 1];
      var cut := |Flat(front)|;
      var rest := Scatter(data[..cut], front);
      assert (rest + [data[cut..]])[..|shape| - 1] == rest;
      rest + [data[cut..]]
  }

  /** `disk` with the bytes from `offset` on replaced by `data`. */
  function Splice(disk: seq<Byte>, offset: nat, data: seq<Byte>): (after: seq<Byte>)
    requires offset + |data| <= |disk|
    ensures |after| == |disk|
    ensures after[offset..offset + |data|] == data
    ensures forall i | 0 <= i < |disk| && (i < offset || offset + |data| <= i) :: after[i] == disk[i]
  {
    disk[..offset] + data + disk[offset + |data|..]
  }

  /** The pages a read fills from `disk`: the bytes of its range, in pieces of its segments' lengths. */
  function PagesOf(disk: seq<Byte>, req: Request): (pages: seq<seq<Byte>>)
    ensures req.Offset() + req.Bytes() <= |disk| ==>
      && Flat(pages) == disk[req.Offset()..req.Offset() + req.Bytes()]
      && |pages| == |req.segments|
      && forall i | 0 <= i < |pages| :: |pages[i]| == |req.segments[i]|
  {
    if req.Offset() + req.Bytes() <= |disk|
    then Scatter(disk[req.Offset()..req.Offset() + req.Bytes()], req.segments)
    else []
  }

  lemma FlatStep(segs: seq<seq<Byte>>, i: nat)
    requires i < |segs|
    ensures Flat(segs[..i + 1]) == Flat(segs[..i]) + segs[i]
  {
    assert segs[..i + 1][..i] == segs[..i];
  }

  lemma {:induction false} FlatPrefix(segs: seq<seq<Byte>>, i: nat)
    requires i <= |segs|
    ensures |Flat(segs[..i])| <= |Flat(segs)|
    decreases |segs| - i
  {
    if i == |segs| {
      assert segs[..i] == segs;
    } else {
      FlatStep(segs, i);
      FlatPrefix(segs, i + 1);
    }
  }

  /** Writing one piece after another, at a running offset, writes the whole. */
  lemma SpliceStep(disk: seq<Byte>, offset: nat, done: seq<Byte>, next: seq<Byte>)
    requires offset + |done| + |next| <= |disk|
    ensures Splice(Splice(disk, offset, done), offset + |done|, next) == Splice(disk, offset, done + next)
  {
  }

  /** Cutting off one piece more. */
  lemma ScatterStep(data: seq<Byte>, shape: seq<seq<Byte>>, i: nat)
    requires i < |shape| && |Flat(shape[..i + 1])| <= |data|
    ensures Flat(shape[..i + 1]) == Flat(shape[..i]) + shape[i]
    ensures Scatter(data[..|Flat(shape[..i + 1])|], shape[..i + 1]) ==
            Scatter(data[..|Flat(shape[..i])|], shape[..i])
            + [data[|Flat(shape[..i])|..|Flat(shape[..i])| + |shape[i]|]]
  {
    FlatStep(shape, i);
    var cut, longer := |Flat(shape[..i])|, |Flat(shape[..i + 1])|;
    assert shape[..i + 1][..i] == shape[..i];
    assert data[..longer][..cut] == data[..cut];
    assert data[..longer][cut..] == data[cut..longer];
  }
}
