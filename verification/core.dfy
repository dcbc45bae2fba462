/**
 * The index scroller of the JuicyGrapeApps.Core namespace (Core.cs). It
 * remembers a current index for every collection it has scrolled, keyed by
 * the collection's hash code, and moves that index by a signed step:
 * wrapping round (Continuous), refusing to leave the range (Directional), or
 * treating the step as an absolute index (Targeted).
 *
 * The pure functions below give the meaning of one call as a transition of
 * the scroller's static state; the class `Scroll` holds that state and its
 * methods are proved to perform exactly those transitions.
 */
module Core {
  import opened Wrappers
  import opened Numerics

  /** How a step treats the two ends of the collection. */
  datatype ScrollingAction = Continuous | Directional | Targeted

  /**
   * An array or list handed to the scroller: its hash code, which keys its
   * remembered index, and the value of its `Length` (or else `Count`)
   * property. `count` is `None` when the collection is null, has neither
   * property, or reading it throws. Distinct collections with equal hash
   * codes share one remembered index.
   */
  datatype Items = Items(hash: Int32, count: Option<Int32>)

  /**
   * A Unity Transform: its instance id, which is also its hash code, and the
   * instance ids of its children in order. `childCount` is an `int`.
   */
  datatype TransformNode = TransformNode(id: Int32, children: seq<Int32>)

  type Transform = t: TransformNode | |t.children| <= INT_MAX witness TransformNode(0, [])

  /**
   * The scroller's static state: the remembered indices (`arrayIndex`), the
   * public `lastIndex`, and the calls made so far to the rescan listener.
   */
  datatype ScrollState = ScrollState(arrayIndex: map<Int32, Int32>, lastIndex: Int32, rescans: seq<(int, int)>)

  /** What one call returns together with the state it leaves behind. */
  datatype Outcome<T> = Outcome(result: T, state: ScrollState)

  /** The effect of a step: stay at the base index, or go to a new one. */
  datatype Move = Stay(index: Int32) | Go(index: Int32)

  /**
   * Every index the scroller stores is non-negative. The public `lastIndex`
   * is left unconstrained: client code may assign it any value.
   */
  ghost predicate Sound(s: ScrollState) {
    forall h | h in s.arrayIndex :: 0 <= s.arrayIndex[h]
  }

  /** The source's `length`: the count less one, computed in 32-bit arithmetic. */
  function Last(count: Int32): (last: Int32)
    ensures 0 < count ==> last == count - 1
    ensures INT_MIN < count <= 0 ==> last < 0
    ensures count == INT_MIN ==> last == INT_MAX
  {
    Wrap(count - 1)
  }

  /**
   * `retriveIndex`: a Targeted step starts from 0; any other starts from the
   * remembered index, or from 0 (the default `TryGetValue` leaves) when the
   * hash code has none.
   */
  function Retrieve(arrayIndex: map<Int32, Int32>, hash: Int32, action: ScrollingAction): (store: Int32)
    ensures action == Targeted || hash !in arrayIndex ==> store == 0
    ensures action != Targeted && hash in arrayIndex ==> store == arrayIndex[hash]
    ensures (forall h | h in arrayIndex :: 0 <= arrayIndex[h]) ==> 0 <= store
  {
    if action == Targeted then 0
    else if hash in arrayIndex then arrayIndex[hash]
    else 0
  }

  /**
   * The step rule: from base index `store`, move by `step` within
   * `[0, last]`. A zero step, or a step that would leave the range under
   * Directional or Targeted, stays at `store`. Otherwise a Continuous step
   * that falls below 0 lands on `last` and one that passes `last` lands on
   * 0. The sum is computed in 32-bit arithmetic, so a sum beyond `INT_MAX`
   * turns negative and lands on `last`.
   */
  function Advance(store: Int32, step: Int32, last: Int32, action: ScrollingAction): (m: Move)
    requires 0 <= store && 0 <= last
    ensures m.Stay? <==> step == 0 || (action != Continuous && !(0 <= store + step <= last))
    ensures m.Stay? ==> m.index == store
    ensures m.Go? ==> 0 <= m.index <= last
    ensures m.Go? && 0 <= store + step <= last ==> m.index == store + step
    ensures m.Go? && store + step < 0 ==> m.index == last
    ensures m.Go? && last < store + step <= INT_MAX ==> m.index == 0
    ensures m.Go? && INT_MAX < store + step ==> m.index == last
  {
    var index := Wrap(store + step);
    if step == 0 || (action != Continuous && (index < 0 || index > last)) then Stay(store)
    else Go(if index < 0 then last else if index > last then 0 else index)
  }

  /** The listener calls of one successful move: `(index, 0)` up to `(index, count - 1)`. */
  function RescanCalls(index: int, count: nat): seq<(int, int)> {
    seq(count, i => (index, i))
  }

  /** `Collection(object, step, action)`: the result and the new static state. */
  function ScrollItems(s: ScrollState, listening: bool, c: Items, step: Int32, action: ScrollingAction): (o: Outcome<Int32>)
    requires Sound(s)
    ensures Sound(o.state)
    ensures 0 <= o.result
  {
    if c.count.None? then Outcome(0, s)
    else
      var last := Last(c.count.value);
      if last < 0 then Outcome(0, s)
      else
        match Advance(Retrieve(s.arrayIndex, c.hash, action), step, last, action)
        case Stay(store) => Outcome(store, s)
        case Go(index) =>
          var rescans := if listening then s.rescans + RescanCalls(index, last) else s.rescans;
          Outcome(index, ScrollState(s.arrayIndex[c.hash := index], index, rescans))
  }

  /** Unity's `GetChild`, which throws outside the children; the scroller's catch turns that into null. */
  function ChildAt(t: Transform, i: int): Option<Int32> {
    if 0 <= i < |t.children| then Some(t.children[i]) else None
  }

  /**
   * `Collection(Transform, step, action)`: the same rule over the children,
   * returning the child at the resulting index (null when there is none) and
   * never calling the rescan listener.
   */
  function ScrollChildren(s: ScrollState, t: Option<Transform>, step: Int32, action: ScrollingAction): (o: Outcome<Option<Int32>>)
    requires Sound(s)
    ensures Sound(o.state)
    ensures o.state.rescans == s.rescans
    ensures o.result.Some? ==> t.Some? && o.result.value in t.value.children
  {
    if t.None? then Outcome(None, s)
    else
      var last := |t.value.children| - 1;
      if last < 0 then Outcome(None, s)
      else
        match Advance(Retrieve(s.arrayIndex, t.value.id, action), step, last, action)
        case Stay(store) => Outcome(ChildAt(t.value, store), s)
        case Go(index) =>
          Outcome(ChildAt(t.value, index), ScrollState(s.arrayIndex[t.value.id := index], index, s.rescans))
  }

  /**
   * The position the `foreach` of `SetIndex(Transform, Transform)` stops at:
   * that of the first child equal to `target`, or the child count when none is.
   */
  function FirstPosition(children: seq<Int32>, target: Int32): (p: nat)
    ensures p <= |children|
    ensures p < |children| ==> children[p] == target
    ensures forall j | 0 <= j < p :: children[j] != target
    ensures p == |children| <==> target !in children
  {
    if children == [] then 0
    else if children[0] == target then 0
    else 1 + FirstPosition(children[1..], target)
  }

  /**
   * The static class `Scroll`. One object stands for its static fields:
   * `arrayIndex`, `lastIndex`, and whether the `rescan` delegate is set. The
   * delegate's calls are recorded in the ghost `rescans` log.
   */
  class Scroll {
    var arrayIndex: map<Int32, Int32>
    var lastIndex: Int32
    var listening: bool
    ghost var rescans: seq<(int, int)>

    ghost function Current(): ScrollState
      reads this
    {
      ScrollState(arrayIndex, lastIndex, rescans)
    }

    ghost predicate Valid()
      reads this
    {
      Sound(Current())
    }

    /** The static initialisers: an empty dictionary, `lastIndex = 0`, no listener. */
    constructor ()
      ensures Valid()
      ensures arrayIndex == map[] && lastIndex == 0 && !listening && rescans == []
    {
      arrayIndex := map[];
      lastIndex := 0;
      listening := false;
      rescans := [];
    }

    /** `OnRescanListener`: registers (or, with null, removes) the listener. */
    method OnRescanListener(listen: bool)
      modifies this`listening
      ensures listening == listen
    {
      listening := listen;
    }

    /** `storeIndex`: remembers `index` under the hash code, replacing any earlier entry. */
    method StoreIndex(hash: Int32, index: Int32)
      modifies this`arrayIndex
      ensures arrayIndex == old(arrayIndex)[hash := index]
    {
      arrayIndex := arrayIndex[hash := index];
    }

    /** `Collection(object, step, action)`. */
    method Collection(c: Items, step: Int32, action: ScrollingAction) returns (r: Int32)
      requires Valid()
      modifies this`arrayIndex, this`lastIndex, this`rescans
      ensures Valid()
      ensures r == ScrollItems(old(Current()), listening, c, step, action).result
      ensures Current() == ScrollItems(old(Current()), listening, c, step, action).state
    {
      if c.count.None? {
        return 0;
      }
      var length := Last(c.count.value);
      if length < 0 {
        return 0;
      }
      var store := Retrieve(arrayIndex, c.hash, action);
      var index := Wrap(store + step);
      if step == 0 || (action != Continuous && (index < 0 || index > length)) {
        return store;
      }
      index := if index < 0 then length else if index > length then 0 else index;
      StoreIndex(c.hash, index);
      lastIndex := index;
      if listening {
        var idx: Int32 := 0;
        while idx < length
          modifies this`rescans
          invariant 0 <= idx <= length
          invariant rescans == old(rescans) + RescanCalls(index, idx)
        {
          rescans := rescans + [(index as int, idx as int)];
          idx := idx + 1;
        }
      }
      return index;
    }

    /** `Collection(Transform, step, action)`. */
    method ChildCollection(t: Option<Transform>, step: Int32, action: ScrollingAction) returns (child: Option<Int32>)
      requires Valid()
      modifies this`arrayIndex, this`lastIndex
      ensures Valid()
      ensures child == ScrollChildren(old(Current()), t, step, action).result
      ensures Current() == ScrollChildren(old(Current()), t, step, action).state
    {
      if t.None? {
        return None;
      }
      var length := |t.value.children| - 1;
      if length < 0 {
        return None;
      }
      var store := Retrieve(arrayIndex, t.value.id, action);
      var index := Wrap(store + step);
      if step == 0 || (action != Continuous && (index < 0 || index > length)) {
        return ChildAt(t.value, store);
      }
      index := if index < 0 then length else if index > length then 0 else index;
      StoreIndex(t.value.id, index);
      lastIndex := index;
      return ChildAt(t.value, index);
    }

    /** `Up(object)`: one Continuous step backwards. */
    method Up(c: Items) returns (r: Int32)
      requires Valid()
      modifies this`arrayIndex, this`lastIndex, this`rescans
      ensures Valid()
      ensures r == ScrollItems(old(Current()), listening, c, -1, Continuous).result
      ensures Current() == ScrollItems(old(Current()), listening, c, -1, Continuous).state
    {
      r := Collection(c, -1, Continuous);
    }

    /** `Up(Transform)`: one Continuous step backwards through the children. */
    method UpChild(t: Option<Transform>) returns (child: Option<Int32>)
      requires Valid()
      modifies this`arrayIndex, this`lastIndex
      ensures Valid()
      ensures child == ScrollChildren(old(Current()), t, -1, Continuous).result
      ensures Current() == ScrollChildren(old(Current()), t, -1, Continuous).state
    {
      child := ChildCollection(t, -1, Continuous);
    }

    /** `Down(object)`: one Continuous step forwards. */
    method Down(c: Items) returns (r: Int32)
      requires Valid()
      modifies this`arrayIndex, this`lastIndex, this`rescans
      ensures Valid()
      ensures r == ScrollItems(old(Current()), listening, c, 1, Continuous).result
      ensures Current() == ScrollItems(old(Current()), listening, c, 1, Continuous).state
    {
      r := Collection(c, 1, Continuous);
    }

    /** `Down(Transform)`: one Continuous step forwards through the children. */
    method DownChild(t: Option<Transform>) returns (child: Option<Int32>)
      requires Valid()
      modifies this`arrayIndex, this`lastIndex
      ensures Valid()
      ensures child == ScrollChildren(old(Current()), t, 1, Continuous).result
      ensures Current() == ScrollChildren(old(Current()), t, 1, Continuous).state
    {
      child := ChildCollection(t, 1, Continuous);
    }

    /** `Collection(object, bool, action)`: one step forwards (true) or backwards (false). */
    method CollectionForward(c: Items, forward: bool, action: ScrollingAction) returns (r: Int32)
      requires Valid()
      modifies this`arrayIndex, this`lastIndex, this`rescans
      ensures Valid()
      ensures r == ScrollItems(old(Current()), listening, c, if forward then 1 else -1, action).result
      ensures Current() == ScrollItems(old(Current()), listening, c, if forward then 1 else -1, action).state
    {
      r := Collection(c, if forward then 1 else -1, action);
    }

    /** `Collection(Transform, bool, action)`: one step through the children, forwards or backwards. */
    method ChildCollectionForward(t: Option<Transform>, forward: bool, action: ScrollingAction) returns (child: Option<Int32>)
      requires Valid()
      modifies this`arrayIndex, this`lastIndex
      ensures Valid()
      ensures child == ScrollChildren(old(Current()), t, if forward then 1 else -1, action).result
      ensures Current() == ScrollChildren(old(Current()), t, if forward then 1 else -1, action).state
    {
      child := ChildCollection(t, if forward then 1 else -1, action);
    }

    /** `GetIndex(object)`: a zero Continuous step, which reads and changes nothing. */
    method GetIndex(c: Items) returns (r: Int32)
      requires Valid()
      modifies this`arrayIndex, this`lastIndex, this`rescans
      ensures Valid()
      ensures Current() == old(Current())
      ensures r == if c.count.None? || Last(c.count.value) < 0 then 0 else Retrieve(arrayIndex, c.hash, Continuous)
    {
      r := Collection(c, 0, Continuous);
    }

    /** `GetIndex(Transform, int)`: a Targeted step to the child at `index`. */
    method GetChild(t: Option<Transform>, index: Int32) returns (child: Option<Int32>)
      requires Valid()
      modifies this`arrayIndex, this`lastIndex
      ensures Valid()
      ensures child == ScrollChildren(old(Current()), t, index, Targeted).result
      ensures Current() == ScrollChildren(old(Current()), t, index, Targeted).state
    {
      child := ChildCollection(t, index, Targeted);
    }

    /** `SetIndex(object, int)`: a Targeted step to `index`, its result discarded. */
    method SetIndex(c: Items, index: Int32)
      requires Valid()
      modifies this`arrayIndex, this`lastIndex, this`rescans
      ensures Valid()
      ensures Current() == ScrollItems(old(Current()), listening, c, index, Targeted).state
    {
      var _ := Collection(c, index, Targeted);
    }

    /** The `foreach` of `SetIndex(Transform, Transform)`: counts the children before the first match. */
    method ChildPosition(t: Transform, target: Int32) returns (index: Int32)
      ensures 0 <= index <= |t.children|
      ensures index < |t.children| ==> t.children[index] == target
      ensures forall j | 0 <= j < index :: t.children[j] != target
      ensures index == FirstPosition(t.children, target)
    {
      index := 0;
      while index < |t.children|
        invariant 0 <= index <= |t.children|
        invariant FirstPosition(t.children[index..], target) + index == FirstPosition(t.children, target)
      {
        if t.children[index] == target {
          break;
        }
        assert t.children[index..][1..] == t.children[index + 1..];
        index := index + 1;
      }
    }

    /** `SetIndex(Transform, Transform)`: a Targeted step to the first child equal to `target`. */
    method SetChild(t: Transform, target: Int32)
      requires Valid()
      modifies this`arrayIndex, this`lastIndex
      ensures Valid()
      ensures Current() == ScrollChildren(old(Current()), Some(t), FirstPosition(t.children, target) as Int32, Targeted).state
    {
      var index := ChildPosition(t, target);
      var _ := ChildCollection(Some(t), index, Targeted);
    }

    /** `GetIndex(Transform, Transform)`: `SetIndex(Transform, Transform)`, then `lastIndex`. */
    method GetChildIndex(t: Transform, target: Int32) returns (r: Int32)
      requires Valid()
      modifies this`arrayIndex, this`lastIndex
      ensures Valid()
      ensures Current() == ScrollChildren(old(Current()), Some(t), FirstPosition(t.children, target) as Int32, Targeted).state
      ensures r == lastIndex
    {
      SetChild(t, target);
      r := lastIndex;
    }
  }
}
