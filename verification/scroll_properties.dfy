/**
 * What the scroller promises, stated over the transition functions of
 * module Core: the cases of one call (failure, peek, wrap, refusal,
 * targeting), what a call may change, the listener calls it makes, and the
 * relations between calls (Down undoes Up, `count` Downs come full circle,
 * the Transform overload follows the rules of the object overload).
 */
module ScrollProperties {
  import opened Wrappers
  import opened Numerics
  import opened Core

  /** Whether a call on `c` moves: the count is readable, positive, and the step rule goes. */
  ghost predicate Moves(s: ScrollState, c: Items, step: Int32, action: ScrollingAction)
    requires Sound(s)
  {
    c.count.Some? && 0 <= Last(c.count.value)
    && Advance(Retrieve(s.arrayIndex, c.hash, action), step, Last(c.count.value), action).Go?
  }

  /** A null collection, one without `Length`/`Count`, or an empty one yields 0 and changes nothing. */
  lemma UnreadableOrEmpty(s: ScrollState, listening: bool, c: Items, step: Int32, action: ScrollingAction)
    requires Sound(s)
    requires c.count.None? || INT_MIN < c.count.value <= 0
    ensures ScrollItems(s, listening, c, step, action) == Outcome(0, s)
  {
  }

  /**
   * A zero step is a peek: it returns the remembered index (0 when there is
   * none, when the action is Targeted, or when the collection is unreadable
   * or empty) and changes neither the dictionary, `lastIndex`, nor the
   * listener log.
   */
  lemma PeekIsPure(s: ScrollState, listening: bool, c: Items, action: ScrollingAction)
    requires Sound(s)
    ensures ScrollItems(s, listening, c, 0, action).state == s
    ensures ScrollItems(s, listening, c, 0, action).result ==
      if c.count.None? || Last(c.count.value) < 0 || action == Targeted || c.hash !in s.arrayIndex then 0
      else s.arrayIndex[c.hash]
  {
  }

  /**
   * For a non-empty collection of `n` elements the result lies in
   * `[0, n - 1]`, provided the index remembered under its hash code does.
   */
  lemma ResultInRange(s: ScrollState, listening: bool, c: Items, step: Int32, action: ScrollingAction)
    requires Sound(s) && c.count.Some? && 0 < c.count.value
    requires action != Targeted && c.hash in s.arrayIndex ==> s.arrayIndex[c.hash] < c.count.value
    ensures 0 <= ScrollItems(s, listening, c, step, action).result < c.count.value
  {
  }

  /**
   * A stale remembered index escapes the range: after a list that was
   * scrolled to index 5 shrinks to three elements (or a collection of three
   * shares its hash code), a peek and a refused Directional step both
   * return 5.
   */
  lemma StaleIndexReturned()
    ensures ScrollItems(ScrollState(map[7 := 5], 5, []), false, Items(7, Some(3)), 0, Continuous).result == 5
    ensures ScrollItems(ScrollState(map[7 := 5], 5, []), false, Items(7, Some(3)), 1, Directional).result == 5
  {
  }

  /**
   * A non-zero Continuous step on a non-empty collection of `n` elements
   * lands on `base + step` when that is in range, on `n - 1` when it is
   * negative (or overflows `int`), and on 0 when it passes `n - 1`; the
   * dictionary entry and `lastIndex` both become the result.
   */
  lemma ContinuousMove(s: ScrollState, listening: bool, c: Items, step: Int32)
    requires Sound(s) && c.count.Some? && 0 < c.count.value && step != 0
    ensures var b, n := Retrieve(s.arrayIndex, c.hash, Continuous), c.count.value;
      ScrollItems(s, listening, c, step, Continuous).result ==
        if b + step < 0 || INT_MAX < b + step then n - 1
        else if n - 1 < b + step then 0
        else b + step
    ensures var o := ScrollItems(s, listening, c, step, Continuous);
      o.state.arrayIndex == s.arrayIndex[c.hash := o.result] && o.state.lastIndex == o.result
  {
  }

  /**
   * Under Directional or Targeted, a step whose target `base + step` falls
   * outside `[0, n - 1]` returns the base and changes nothing.
   */
  lemma RefusedMoveChangesNothing(s: ScrollState, listening: bool, c: Items, step: Int32, action: ScrollingAction)
    requires Sound(s) && c.count.Some? && 0 < c.count.value && action != Continuous
    requires !(0 <= Retrieve(s.arrayIndex, c.hash, action) + step < c.count.value)
    ensures ScrollItems(s, listening, c, step, action) == Outcome(Retrieve(s.arrayIndex, c.hash, action), s)
  {
  }

  /**
   * `SetIndex(c, k)` ignores the remembered index: for `1 <= k <= n - 1` it
   * stores `k` and sets `lastIndex` to `k`; for `k == 0` (a peek) and for
   * any `k` out of range it yields 0 and stores nothing.
   */
  lemma TargetedSetsIndex(s: ScrollState, listening: bool, c: Items, k: Int32)
    requires Sound(s) && c.count.Some? && 0 < c.count.value
    ensures var o := ScrollItems(s, listening, c, k, Targeted);
      if 1 <= k < c.count.value then
        o.result == k && o.state.arrayIndex == s.arrayIndex[c.hash := k] && o.state.lastIndex == k
      else
        o == Outcome(0, s)
  {
  }

  /**
   * A call either leaves the state alone or, when it moves, writes the
   * result under the scrolled collection's hash code and into `lastIndex`;
   * every other dictionary entry keeps its value.
   */
  lemma OnlyScrolledEntryChanges(s: ScrollState, listening: bool, c: Items, step: Int32, action: ScrollingAction)
    requires Sound(s)
    ensures var o := ScrollItems(s, listening, c, step, action);
      if Moves(s, c, step, action) then
        o.state.arrayIndex == s.arrayIndex[c.hash := o.result] && o.state.lastIndex == o.result
        && o.result <= Last(c.count.value)
      else
        o.state == s
    ensures var o := ScrollItems(s, listening, c, step, action);
      forall h | h in s.arrayIndex && h != c.hash :: h in o.state.arrayIndex && o.state.arrayIndex[h] == s.arrayIndex[h]
  {
  }

  /**
   * With a listener set, a move on a collection of `n` elements calls it
   * `n - 1` times, with `(index, 0)` up to `(index, n - 2)` in that order. A
   * peek, a refused move, a failed call, or an unset listener calls nothing.
   */
  lemma RescanNotifications(s: ScrollState, listening: bool, c: Items, step: Int32, action: ScrollingAction)
    requires Sound(s)
    ensures var o := ScrollItems(s, listening, c, step, action);
      !(listening && Moves(s, c, step, action)) ==> o.state.rescans == s.rescans
    ensures var o := ScrollItems(s, listening, c, step, action);
      listening && Moves(s, c, step, action) && 0 < c.count.value ==>
        && |o.state.rescans| == |s.rescans| + c.count.value - 1
        && o.state.rescans[..|s.rescans|] == s.rescans
        && forall i | |s.rescans| <= i < |o.state.rescans| :: o.state.rescans[i] == (o.result as int, i - |s.rescans|)
  {
    var o := ScrollItems(s, listening, c, step, action);
    if listening && Moves(s, c, step, action) && 0 < c.count.value {
      assert o.state.rescans == s.rescans + RescanCalls(o.result, c.count.value - 1);
    }
  }

  /** The state after `k` calls of `Down(c)`. */
  ghost function DownTimes(s: ScrollState, listening: bool, c: Items, k: nat): (t: ScrollState)
    requires Sound(s)
    ensures Sound(t)
  {
    if k == 0 then s else ScrollItems(DownTimes(s, listening, c, k - 1), listening, c, 1, Continuous).state
  }

  /**
   * Starting from an index `i` in range, `k <= n` calls of `Down` leave the
   * collection at index `i + k`, or at `i + k - n` once they have passed
   * the end.
   */
  lemma {:induction false} DownAdvances(s: ScrollState, listening: bool, c: Items, k: nat)
    requires Sound(s) && c.count.Some? && 0 < c.count.value && k <= c.count.value
    requires Retrieve(s.arrayIndex, c.hash, Continuous) < c.count.value
    ensures var i, n := Retrieve(s.arrayIndex, c.hash, Continuous), c.count.value;
      Retrieve(DownTimes(s, listening, c, k).arrayIndex, c.hash, Continuous) == if i + k < n then i + k else i + k - n
  {
    if k > 0 {
      DownAdvances(s, listening, c, k - 1);
    }
  }

  /** `n` calls of `Down` on a collection of `n` elements return to the starting index. */
  lemma DownCyclesBack(s: ScrollState, listening: bool, c: Items)
    requires Sound(s) && c.count.Some? && 0 < c.count.value
    requires Retrieve(s.arrayIndex, c.hash, Continuous) < c.count.value
    ensures Retrieve(DownTimes(s, listening, c, c.count.value).arrayIndex, c.hash, Continuous) == Retrieve(s.arrayIndex, c.hash, Continuous)
  {
    DownAdvances(s, listening, c, c.count.value);
  }

  /** From an index in range, `Up` followed by `Down` returns both the result and the stored index to where they were. */
  lemma DownUndoesUp(s: ScrollState, listening: bool, c: Items)
    requires Sound(s) && c.count.Some? && 0 < c.count.value
    requires Retrieve(s.arrayIndex, c.hash, Continuous) < c.count.value
    ensures var up := ScrollItems(s, listening, c, -1, Continuous);
      var down := ScrollItems(up.state, listening, c, 1, Continuous);
      down.result == Retrieve(s.arrayIndex, c.hash, Continuous) && Retrieve(down.state.arrayIndex, c.hash, Continuous) == Retrieve(s.arrayIndex, c.hash, Continuous)
  {
  }

  /** A null Transform, or one without children, yields null and changes nothing. */
  lemma NoChildren(s: ScrollState, t: Option<Transform>, step: Int32, action: ScrollingAction)
    requires Sound(s)
    requires t.None? || |t.value.children| == 0
    ensures ScrollChildren(s, t, step, action) == Outcome(None, s)
  {
  }

  /**
   * The Transform overload applies the object overload's rules to
   * `childCount`: it leaves the same state behind (without calling the
   * listener) and returns the child at the object overload's result, or
   * null where `GetChild` fails on a stale index.
   */
  lemma ChildrenFollowItemRules(s: ScrollState, t: Transform, step: Int32, action: ScrollingAction)
    requires Sound(s)
    ensures var o := ScrollChildren(s, Some(t), step, action);
      var p := ScrollItems(s, false, Items(t.id, Some(|t.children| as Int32)), step, action);
      o.state == p.state && o.result == ChildAt(t, p.result)
  {
  }

  /**
   * `GetIndex(t, k)` returns child `k` when `k` is in range and the first
   * child otherwise (a refused Targeted step stays at base 0); it stores
   * `k` only when `1 <= k`.
   */
  lemma GetChildTargets(s: ScrollState, t: Transform, k: Int32)
    requires Sound(s) && 0 < |t.children|
    ensures var o := ScrollChildren(s, Some(t), k, Targeted);
      o.result == Some(if 0 <= k < |t.children| then t.children[k] else t.children[0])
    ensures var o := ScrollChildren(s, Some(t), k, Targeted);
      o.state == if 1 <= k < |t.children| then ScrollState(s.arrayIndex[t.id := k], k, s.rescans) else s
  {
  }

  /**
   * `SetIndex(t, target)` with no child equal to `target` targets
   * `childCount`, which is out of range, so nothing changes and
   * `GetIndex(t, target)` returns the previous `lastIndex`.
   */
  lemma SetChildUnmatched(s: ScrollState, t: Transform, target: Int32)
    requires Sound(s) && target !in t.children
    ensures ScrollChildren(s, Some(t), FirstPosition(t.children, target) as Int32, Targeted).state == s
  {
  }

  /**
   * `SetIndex(t, target)` with a matching child at first position `p`
   * stores `p` and sets `lastIndex` to `p` when `p >= 1`; when the first
   * child matches, the step is 0, a peek, so nothing is stored and
   * `GetIndex(t, target)` returns the previous `lastIndex`, not 0.
   */
  lemma SetChildMatched(s: ScrollState, t: Transform, target: Int32)
    requires Sound(s) && target in t.children
    ensures var p := FirstPosition(t.children, target);
      var after := ScrollChildren(s, Some(t), p as Int32, Targeted).state;
      if p == 0 then after == s
      else after.arrayIndex == s.arrayIndex[t.id := p as Int32] && after.lastIndex == p && t.children[p] == target
  {
  }
}
