/** The argmin scans both the drivers and the emulator server are built from. */
module Scan {
  import opened Block

  /** Position `i` holds the least key present, and no earlier position holds it. */
  predicate IsFirstLeast(keys: seq<Option<int>>, i: nat) {
    && i < |keys|
    && keys[i].Some?
    && (forall j | 0 <= j < |keys| && keys[j].Some? :: keys[i].value <= keys[j].value)
    && (forall j | 0 <= j < i && keys[j].Some? :: keys[i].value < keys[j].value)
  }

  function FirstLeast(keys: seq<Option<int>>): (r: Option<nat>)
    ensures r.None? <==> forall i | 0 <= i < |keys| :: keys[i].None?
    ensures r.Some? ==> IsFirstLeast(keys, r.value)
  {
    if |keys| == 0 then
      None
    else
      var last := |keys| - 1;
      var r := FirstLeast(keys[..last]);
      if keys[last].Some? && (r.None? || keys[last].value < keys[..last][r.value].value) then Some(last) else r
  }

  lemma FirstLeastUnique(keys: seq<Option<int>>, i: nat)
    requires IsFirstLeast(keys, i)
    ensures FirstLeast(keys) == Some(i)
  {
    var r := FirstLeast(keys);
    assert keys[i].Some?;
  }

  /** The least key present. */
  function Least(keys: seq<Option<int>>): (r: Option<int>)
    ensures r.None? <==> forall i | 0 <= i < |keys| :: keys[i].None?
    ensures r.Some? ==> r in keys && forall j | 0 <= j < |keys| && keys[j].Some? :: r.value <= keys[j].value
  {
    match FirstLeast(keys)
    case None => None
    case Some(i) => keys[i]
  }

  /** A key that appears where there was none lowers the minimum, or leaves it. */
  lemma LeastWith(keys: seq<Option<int>>, i: nat, v: int)
    requires i < |keys| && keys[i] == None
    ensures Least(keys[i := Some(v)]) ==
            Some(if Least(keys).Some? && Least(keys).value < v then Least(keys).value else v)
  {
    var after := keys[i := Some(v)];
    assert after[i] == Some(v);
    if Least(keys).Some? {
      var k :| 0 <= k < |keys| && keys[k] == Least(keys);
      assert after[k] == keys[k];
    }
    var j :| 0 <= j < |after| && after[j] == Least(after);
    assert j == i || keys[j] == after[j];
  }

  lemma LeastNone(keys: seq<Option<int>>)
    requires |keys| == 0
    ensures Least(keys) == None
  {
  }

  /** The minimum of one key more. */
  lemma LeastStep(keys: seq<Option<int>>, i: nat)
    requires i < |keys|
    ensures var before, after := Least(keys[..i]), Least(keys[..i + 1]);
            after == if keys[i].Some? && (before.None? || keys[i].value < before.value) then keys[i] else before
  {
    assert keys[..i + 1][..i] == keys[..i];
  }
}
