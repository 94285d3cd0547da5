/** The copying loops the drivers share: bytes, and whole scattered requests with a running offset. */
module Transfer {
  import opened Block

  /** memcpy into a byte array. */
  method CopyInto(target: array<Byte>, offset: nat, source: seq<Byte>)
    requires offset + |source| <= target.Length
    modifies target
    ensures target[..] == Splice(old(target[..]), offset, source)
  {
    forall k | 0 <= k < |source| {
      target[offset + k] := source[k];
    }
  }

  /** Gathers scattered segments into one range of `target`. */
  method GatherInto(target: array<Byte>, from: nat, segments: seq<seq<Byte>>)
    requires from + |Flat(segments)| <= target.Length
    modifies target
    ensures target[..] == Splice(old(target[..]), from, Flat(segments))
  {
    var offset := from;
    assert segments[..|segments|] == segments;
    for i := 0 to |segments|
      invariant offset == from + |Flat(segments[..i])| <= target.Length
      invariant target[..] == Splice(old(target[..]), from, Flat(segments[..i]))
    {
      FlatStep(segments, i);
      FlatPrefix(segments, i + 1);
      SpliceStep(old(target[..]), from, Flat(segments[..i]), segments[i]);
      CopyInto(target, offset, segments[i]);
      offset := offset + |segments[i]|;
    }
  }

  /** Scatters one range of `source` over segments of the lengths of `shape`. */
  method ScatterFrom(source: array<Byte>, from: nat, shape: seq<seq<Byte>>) returns (pages: seq<seq<Byte>>)
    requires from + |Flat(shape)| <= source.Length
    ensures pages == Scatter(source[from..from + |Flat(shape)|], shape)
  {
    hide Scatter, PagesSoFar, Flat;
    var offset := from;
    ghost var all: seq<Byte>, cut: nat := source[..], 0;
    pages := [];
    PagesStart(all, from, shape);
    for i := 0 to |shape|
      invariant offset == from + cut
      invariant PagesSoFar(all, from, shape, i, cut, pages)
    {
      var size := |shape[i]|;
      PagesStep(all, from, shape, i, cut, pages);
      assert source[offset..offset + size] == all[offset..offset + size];
      pages := pages + [source[offset..offset + size]];
      offset := offset + size;
      cut := cut + size;
    }
    PagesEnd(all, from, shape, cut, pages);
    assert all[from..from + |Flat(shape)|] == source[from..from + |Flat(shape)|];
  }

  /** After `i` segments, the first `cut` bytes of the range have been copied out. */
  predicate PagesSoFar(source: seq<Byte>, from: nat, shape: seq<seq<Byte>>, i: nat, cut: nat, pages: seq<seq<Byte>>) {
    && i <= |shape|
    && from + |Flat(shape)| <= |source|
    && cut == |Flat(shape[..i])| <= |Flat(shape)|
    && pages == Scatter(source[from..][..cut], shape[..i])
  }

  lemma PagesStart(source: seq<Byte>, from: nat, shape: seq<seq<Byte>>)
    requires from + |Flat(shape)| <= |source|
    ensures PagesSoFar(source, from, shape, 0, 0, [])
  {
  }

  lemma PagesStep(source: seq<Byte>, from: nat, shape: seq<seq<Byte>>, i: nat, cut: nat, pages: seq<seq<Byte>>)
    requires PagesSoFar(source, from, shape, i, cut, pages) && i < |shape|
    ensures cut + |shape[i]| <= |Flat(shape)|
    ensures var size := |shape[i]|;
            PagesSoFar(source, from, shape, i + 1, cut + size, pages + [source[from + cut..from + cut + size]])
  {
    hide Flat, Scatter;
    var data, size := source[from..], |shape[i]|;
    FlatPrefix(shape, i + 1);
    FlatStep(shape, i);
    assert |Flat(shape[..i + 1])| == cut + size;
    ScatterStep(data, shape, i);
    TailSlice(source, from, cut, cut + size);
  }

  lemma TailSlice(s: seq<Byte>, from: nat, a: nat, b: nat)
    requires a <= b && from + b <= |s|
    ensures s[from..][a..b] == s[from + a..from + b]
  {
  }

  lemma PagesEnd(source: seq<Byte>, from: nat, shape: seq<seq<Byte>>, cut: nat, pages: seq<seq<Byte>>)
    requires PagesSoFar(source, from, shape, |shape|, cut, pages)
    ensures pages == Scatter(source[from..from + |Flat(shape)|], shape)
  {
    hide Flat, Scatter;
    assert shape[..|shape|] == shape;
    TailSlice(source, from, 0, cut);
    assert source[from..][0..cut] == source[from..][..cut];
  }
}
