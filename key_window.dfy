/**
 * The clamps the store applies to its visible key range: `startKey` is the
 * index of the leftmost visible key, `visibleKeys` the number of keys shown,
 * and the valid indices of the 88-key piano are 0..87.
 */
module KeyWindow {
  import opened Wrappers

  const LastKey := 87
  const MaxVisible := 18

  /** Largest start that keeps `visible` keys on the piano. */
  function MaxStart(visible: int): int
  {
    LastKey - visible + 1
  }

  /** A start and width the store may hold: the window lies inside 0..87. */
  predicate WindowValid(start: int, visible: int)
  {
    1 <= visible <= MaxVisible && 0 <= start && start + visible - 1 <= LastKey
  }

  /** `key` is one of the visible keys. */
  predicate InWindow(key: int, start: int, visible: int)
  {
    start <= key < start + visible
  }

  /** `setStartKey`'s clamp of a requested start against the current width. */
  function ClampStart(key: int, visible: int): (s: int)
    ensures 0 <= s
    ensures visible <= LastKey + 1 ==> s <= MaxStart(visible)
    ensures 0 <= key <= MaxStart(visible) ==> s == key
    ensures key < 0 ==> s == 0
    ensures key > MaxStart(visible) ==> s == Max(0, MaxStart(visible))
  {
    Max(0, Min(key, MaxStart(visible)))
  }

  /** `setVisibleKeys`'s clamp of a requested width into 1..18. */
  function ClampVisible(count: int): (v: int)
    ensures 1 <= v <= MaxVisible
    ensures 1 <= count <= MaxVisible ==> v == count
    ensures count < 1 ==> v == 1
    ensures count > MaxVisible ==> v == MaxVisible
  {
    Max(1, Min(MaxVisible, count))
  }

  /** `setVisibleKeys`'s new start: the old one, pulled left only as far as the new width needs. */
  function ResizedStart(start: int, count: int): (s: int)
    ensures s <= start
    ensures s <= MaxStart(ClampVisible(count))
    ensures start <= MaxStart(ClampVisible(count)) ==> s == start
    ensures start > MaxStart(ClampVisible(count)) ==> s == MaxStart(ClampVisible(count))
  {
    Min(start, MaxStart(ClampVisible(count)))
  }

  /** Setting the start with a valid width gives a valid window of the same width. */
  lemma ClampStartValid(key: int, visible: int)
    requires 1 <= visible <= MaxVisible
    ensures WindowValid(ClampStart(key, visible), visible)
  {
  }

  /** Resizing never pushes a non-negative start out of the piano. */
  lemma ResizedStartValid(start: int, count: int)
    requires 0 <= start
    ensures WindowValid(ResizedStart(start, count), ClampVisible(count))
  {
  }

  /** The start clamp is idempotent. */
  lemma ClampStartIdempotent(key: int, visible: int)
    requires 1 <= visible <= MaxVisible
    ensures ClampStart(ClampStart(key, visible), visible) == ClampStart(key, visible)
  {
  }

  /** Resizing twice to the same count is resizing once. */
  lemma ResizedStartIdempotent(start: int, count: int)
    ensures ResizedStart(ResizedStart(start, count), count) == ResizedStart(start, count)
  {
  }

  /** Asking for a start on the piano shows that key, whatever the valid width. */
  lemma ClampStartShowsKey(key: int, visible: int)
    requires 0 <= key <= LastKey && 1 <= visible <= MaxVisible
    ensures InWindow(key, ClampStart(key, visible), visible)
  {
  }
}
