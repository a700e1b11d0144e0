/**
 * The persisted counters under "callout.settings": a string-keyed record of
 * integer counts, with one "{id}.dismissed" and one "{id}.actedUpon" key
 * per callout. A key that is absent (or holds something that is not an
 * integer) reads as 0.
 */
module Counters {

  type Settings = map<string, int>

  const DismissedSuffix: string := ".dismissed"
  const ActedUponSuffix: string := ".actedUpon"

  /** The key of a callout's dismissal count: the id, then ".dismissed". */
  function DismissedKey(id: string): (key: string)
    ensures |key| == |id| + 10
    ensures key[..|id|] == id
    ensures key[|id|..] == ".dismissed"
  {
    id + DismissedSuffix
  }

  /** The key of a callout's acted-upon count: the id, then ".actedUpon". */
  function ActedUponKey(id: string): (key: string)
    ensures |key| == |id| + 10
    ensures key[..|id|] == id
    ensures key[|id|..] == ".actedUpon"
  {
    id + ActedUponSuffix
  }

  /** The count stored under a key, 0 when there is none. */
  function Count(settings: Settings, key: string): (n: int)
    ensures key !in settings ==> n == 0
  {
    if key in settings then settings[key] else 0
  }

  /** Stores a count under a key and leaves every other count alone. */
  function SetCount(settings: Settings, count: int, key: string): (r: Settings)
    ensures Count(r, key) == count
    ensures forall k :: k != key ==> Count(r, k) == Count(settings, k)
  {
    var newState := settings;
    newState[key := count]
  }

  /** Raises the count under a key by exactly one and no other count. */
  function IncrementCount(settings: Settings, key: string): (r: Settings)
    ensures Count(r, key) == Count(settings, key) + 1
    ensures forall k :: k != key ==> Count(r, k) == Count(settings, k)
  {
    SetCount(settings, Count(settings, key) + 1, key)
  }

  /** The record after a reset: every count reads 0. */
  function Cleared(): (r: Settings)
    ensures forall k :: Count(r, k) == 0
  {
    map[]
  }

  /** No dismissal key is ever an acted-upon key: the two suffixes end in
      different letters. */
  lemma DismissedIsNotActedUpon(a: string, b: string)
    ensures DismissedKey(a) != ActedUponKey(b)
  {
    var d, u := DismissedKey(a), ActedUponKey(b);
    if |d| == |u| {
      assert d[|d| - 1] == 'd';
      assert u[|u| - 1] == 'n';
    }
  }

  /** Different callouts have different dismissal keys. */
  lemma DismissedKeyInjective(a: string, b: string)
    ensures DismissedKey(a) == DismissedKey(b) ==> a == b
  {
    if DismissedKey(a) == DismissedKey(b) {
      assert a == DismissedKey(a)[..|a|];
      assert b == DismissedKey(b)[..|b|];
    }
  }

  /** Different callouts have different acted-upon keys. */
  lemma ActedUponKeyInjective(a: string, b: string)
    ensures ActedUponKey(a) == ActedUponKey(b) ==> a == b
  {
    if ActedUponKey(a) == ActedUponKey(b) {
      assert a == ActedUponKey(a)[..|a|];
      assert b == ActedUponKey(b)[..|b|];
    }
  }
}
