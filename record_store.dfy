/**
  The range conventions of the record store's list and sorted-set reads
  (`getListRange`, `getSortedSetRevRange`): Redis LRANGE/ZREVRANGE indices,
  where both ends are inclusive and a negative index counts from the end.
 */
module RecordStore {

  /** The first position a range read returns: a negative `start` counts from the end and is clamped to 0. */
  function RangeStart(n: nat, start: int): nat
  {
    if start < 0 then (if n + start < 0 then 0 else n + start) else start
  }

  /** One past the last position a range read returns (`stop` is inclusive, negative counts from the end, clamped to the length). */
  function RangeEnd(n: nat, stop: int): int
  {
    var last := if stop < 0 then n + stop else stop;
    if last >= n then n else last + 1
  }

  /** `getListRange(key, start, stop)` over the list `s`. */
  function ListRange<T>(s: seq<T>, start: int, stop: int): (r: seq<T>)
    ensures |r| <= |s|
    ensures forall i :: 0 <= i < |r| ==> RangeStart(|s|, start) + i < |s| && r[i] == s[RangeStart(|s|, start) + i]
    ensures |r| == if RangeStart(|s|, start) < RangeEnd(|s|, stop) then RangeEnd(|s|, stop) - RangeStart(|s|, start) else 0
  {
    var lo, hi := RangeStart(|s|, start), RangeEnd(|s|, stop);
    if lo < hi then s[lo..hi] else []
  }

  /** The whole list is the range from 0 to -1. */
  lemma WholeRange<T>(s: seq<T>)
    ensures ListRange(s, 0, -1) == s
  {
  }

  /** With plain indices the range is inclusive at both ends. */
  lemma InclusiveRange<T>(s: seq<T>, start: nat, stop: nat)
    requires start <= stop < |s|
    ensures ListRange(s, start, stop) == s[start..stop + 1]
  {
  }

  /** A range that starts past the end, or ends before it starts, is empty. */
  lemma EmptyRange<T>(s: seq<T>, start: int, stop: int)
    requires start >= |s| || (0 <= stop < start) || stop < -|s|
    ensures ListRange(s, start, stop) == []
  {
  }

  /** The sequence in the opposite order. */
  function Reverse<T>(s: seq<T>): (r: seq<T>)
    ensures |r| == |s|
    ensures forall i :: 0 <= i < |s| ==> r[i] == s[|s| - 1 - i]
  {
    if s == [] then [] else Reverse(s[1..]) + [s[0]]
  }

  /** `getSortedSetRevRange(key, start, stop)` over a sorted set given in ascending score order. */
  function SortedSetRevRange<T>(ascending: seq<T>, start: int, stop: int): seq<T>
  {
    ListRange(Reverse(ascending), start, stop)
  }

  /** The full reverse range of a sorted set is the set from highest to lowest score. */
  lemma WholeRevRange<T>(ascending: seq<T>)
    ensures SortedSetRevRange(ascending, 0, -1) == Reverse(ascending)
  {
    WholeRange(Reverse(ascending));
  }
}
