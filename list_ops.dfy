/** Positional edits of the ledger's ordered list: the bounds-checked
    removal, and `Array.prototype.splice(start, deleteCount)` as section
    23.1.3.31 of ECMA-262 (2023) defines it, for integer arguments and no
    inserted items. */
module ListOps {

  /** The list with position `i` deleted; later entries shift left by one. */
  function RemoveAt<T>(s: seq<T>, i: nat): (r: seq<T>)
    requires i < |s|
    ensures |r| == |s| - 1
    ensures forall j :: 0 <= j < i ==> r[j] == s[j]
    ensures forall j :: i <= j < |r| ==> r[j] == s[j + 1]
    ensures multiset(r) + multiset{s[i]} == multiset(s)
  {
    assert s == s[..i] + [s[i]] + s[i + 1..];
    s[..i] + s[i + 1..]
  }

  /** Adding an entry and then deleting the last position gives back the
      list as it was. */
  lemma RemoveLastUndoesAppend<T>(s: seq<T>, x: T)
    ensures RemoveAt(s + [x], |s|) == s
  {
    assert (s + [x])[..|s|] == s;
  }

  /** Splice's actualStart, where the deletion starts. A negative start
      counts back from the end and is clamped at 0; a start past the end is
      clamped to the length. */
  function ActualStart(len: nat, relativeStart: int): (k: nat)
    ensures k <= len
    ensures 0 <= relativeStart ==> k == if relativeStart < len then relativeStart else len
    ensures relativeStart < 0 && 0 <= len + relativeStart ==> k == len + relativeStart
    ensures len + relativeStart < 0 ==> k == 0
  {
    if relativeStart < 0 then
      (if len + relativeStart < 0 then 0 else len + relativeStart)
    else if relativeStart < len then relativeStart
    else len
  }

  /** Splice's actualDeleteCount, the number of elements deleted: the
      requested count clamped between 0 and what lies after the start. */
  function ActualDeleteCount(len: nat, start: nat, deleteCount: int): (n: nat)
    requires start <= len
    ensures n <= len - start
    ensures 0 <= deleteCount <= len - start ==> n == deleteCount
    ensures deleteCount < 0 ==> n == 0
    ensures len - start < deleteCount ==> n == len - start
  {
    if deleteCount < 0 then 0
    else if deleteCount < len - start then deleteCount
    else len - start
  }

  /** The array left behind by `a.splice(start, deleteCount)`. The array of
      removed elements that splice also returns is not part of this result
      (the ledger ignores it). */
  function Splice<T>(s: seq<T>, start: int, deleteCount: int): (r: seq<T>)
    ensures var k := ActualStart(|s|, start);
            var n := ActualDeleteCount(|s|, k, deleteCount);
            |r| == |s| - n &&
            (forall j :: 0 <= j < k ==> r[j] == s[j]) &&
            (forall j :: k <= j < |r| ==> r[j] == s[j + n])
  {
    var k := ActualStart(|s|, start);
    var n := ActualDeleteCount(|s|, k, deleteCount);
    s[..k] + s[k + n..]
  }

  /** `a.splice(index, 1)` without any bounds check, as the unchecked
      ledger calls it, characterised case by case in terms of `RemoveAt`. */
  function SpliceOne<T>(s: seq<T>, index: int): (r: seq<T>)
    ensures 0 <= index < |s| ==> r == RemoveAt(s, index)
    ensures |s| <= index ==> r == s
    ensures -|s| <= index < 0 ==> r == RemoveAt(s, |s| + index)
    ensures index < -|s| && s != [] ==> r == RemoveAt(s, 0)
    ensures index < 0 && s == [] ==> r == []
  {
    Splice(s, index, 1)
  }

  /** In the unchecked ledger `remover(-1)` right after an append also
      undoes it, because -1 addresses the last element. */
  lemma SpliceMinusOneUndoesAppend<T>(s: seq<T>, x: T)
    ensures SpliceOne(s + [x], -1) == s
  {
    RemoveLastUndoesAppend(s, x);
  }
}
