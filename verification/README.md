# Scroll: a verified model of the Unity-Utilities index scroller

JuicyGrape Apps' Unity-Utilities package has a static helper,
`JuicyGrapeApps.Core.Scroll`, that lets code scroll through an array, a
list or a Transform's children without keeping an index of its own. For
every collection it sees, the scroller remembers a current index in a
static `Dictionary<int,int>` keyed by the collection's hash code. It then
moves that index by a signed `step`, according to a `ScrollingAction`:

- **Continuous** wraps round. Below 0 it lands on the last index; past the end it lands on 0.
- **Directional** refuses a step that would leave the range and returns the stored index.
- **Targeted** starts from 0, not the stored index, so the step acts as an absolute index. An out-of-range target is refused.

A zero step only reads. An empty or unreadable collection yields 0, or null
for the Transform overload. A successful move writes the dictionary and
the public `lastIndex`. The object overload then calls the optional rescan
listener once for each index from 0 to `count - 2`; the Transform overload
never calls it.

The project has four modules:

- `Numerics`: C#'s `int` and its unchecked wrap-around (`Wrap`).
- `Wrappers`: `Option`, standing for null.
- `Core`: the model of Core.cs.
  - Pure transition functions: `Advance` is the step rule, `ScrollItems` the object overload, `ScrollChildren` the Transform overload.
  - The class `Scroll`: one object holds the static fields. Its methods mirror the source's methods, loops included, and each is proved to perform exactly the transition its function describes.
- `ScrollProperties`: the properties of those transitions, as lemmas.

Collections are abstracted as `Items(hash, count)`. `count` is `None` when
the collection is null, has no `Length`/`Count` property, or reading it
throws. A Transform is its instance id (its hash code) and the ids of its
children. The listener is a flag (`listening`). Its calls are recorded in
the ghost log `rescans`.

Three behaviours of the code are easy to misread:

- A Targeted step out of range is refused, not wrapped.
- The listener is called `count - 1` times, not once per element.
- A returned index is in range only while the stored index is (see `ResultInRange` below).

## Model

| member | source | states |
|---|---|---|
| `Numerics.Wrap` | Core.cs:61 | the `int` that unchecked C# arithmetic yields: the exact value when it fits, otherwise the value shifted by 2^32 into range |
| `Core.Last` | Core.cs:57-58 | `length` is `count - 1` for a positive count, negative for an empty (or negative) count, and `int.MaxValue` for a count of `int.MinValue` (wrap-around) |
| `Core.Retrieve` | Core.cs:112-118 | the base of a step: 0 for Targeted, otherwise the stored value or the `TryGetValue` default 0 (its results are stated by `PeekIsPure`) |
| `Core.Advance` | Core.cs:61-63 | the step rule: stays at the base exactly when the step is 0 or a non-Continuous target leaves `[0, last]`; otherwise lands in `[0, last]`: on `base + step` in range, on `last` below 0 or on 32-bit overflow, on 0 past `last` |
| `Core.ScrollItems` | Core.cs:52-74 | one object-overload call preserves the non-negativity of everything stored and returns a non-negative index |
| `Core.ScrollChildren` | Core.cs:86-103 | one Transform-overload call keeps the stored indices non-negative, never touches the listener log, and returns either null or one of the Transform's own children |
| `Core.FirstPosition` | Core.cs:157-158 | the foreach count: the position of the first child equal to the target, every earlier child differs, and it equals `childCount` exactly when no child matches |
| `Core.Scroll.constructor` | Core.cs:24-26 | the static initial state: empty dictionary, `lastIndex == 0`, no listener |
| `Core.Scroll.OnRescanListener` | Core.cs:81 | sets or clears the listener and nothing else |
| `Core.Scroll.StoreIndex` | Core.cs:105-110 | the dictionary gains or overwrites exactly the entry for the hash code |
| `Core.Scroll.Collection` | Core.cs:52-74 | result and new dictionary, `lastIndex` and listener log are those of `ScrollItems`; the rescan `for` loop appends `(index, 0)` … `(index, length - 1)` |
| `Core.Scroll.ChildCollection` | Core.cs:86-103 | result child and new state are those of `ScrollChildren`; a failing `GetChild` on a stale index gives null |
| `Core.Scroll.Up` | Core.cs:123 | a Continuous step of -1 |
| `Core.Scroll.UpChild` | Core.cs:125 | a Continuous step of -1 over the children |
| `Core.Scroll.Down` | Core.cs:127 | a Continuous step of +1 |
| `Core.Scroll.DownChild` | Core.cs:129 | a Continuous step of +1 over the children |
| `Core.Scroll.CollectionForward` | Core.cs:131 | a step of +1 when forward, -1 otherwise, under the given action |
| `Core.Scroll.ChildCollectionForward` | Core.cs:133 | the same over the children |
| `Core.Scroll.GetIndex` | Core.cs:138 | changes nothing and returns the stored index, or 0 for an unreadable or empty collection or a missing entry |
| `Core.Scroll.GetChild` | Core.cs:148 | a Targeted step to `index` over the children |
| `Core.Scroll.SetIndex` | Core.cs:151 | the state after a Targeted step to `index` |
| `Core.Scroll.ChildPosition` | Core.cs:157-158 | the loop returns the first position holding the target (all earlier children differ), or `childCount` when none does |
| `Core.Scroll.SetChild` | Core.cs:155-160 | the state after a Targeted step to the first matching child's position |
| `Core.Scroll.GetChildIndex` | Core.cs:141-145 | that state, returning whatever `lastIndex` then holds |
| `ScrollProperties.UnreadableOrEmpty` | Core.cs:57-58 | a null or property-less collection (the catch at line 73) or an empty one yields 0 and leaves the state unchanged |
| `ScrollProperties.PeekIsPure` | Core.cs:60-62 | a zero step changes nothing and returns the stored index; it returns 0 if the key is absent, the action is Targeted, or the collection is unreadable or empty |
| `ScrollProperties.ResultInRange` | Core.cs:57-63 | for `n > 0` the result is in `[0, n - 1]` whenever the stored index for the key is |
| `ScrollProperties.StaleIndexReturned` | Core.cs:60-62 | a stored 5 against a three-element collection is returned by a peek and by a refused Directional step |
| `ScrollProperties.ContinuousMove` | Core.cs:61-66 | a non-zero Continuous step gives `base + step` in range, `n - 1` below 0 or on overflow, 0 past `n - 1`; the dictionary entry and `lastIndex` become the result |
| `ScrollProperties.RefusedMoveChangesNothing` | Core.cs:62 | under Directional or Targeted, a target outside `[0, n - 1]` returns the base and changes nothing |
| `ScrollProperties.TargetedSetsIndex` | Core.cs:151 | `SetIndex(c, k)` stores `k` and sets `lastIndex = k` iff `1 <= k <= n - 1`; `k == 0` and out-of-range `k` yield 0 and store nothing |
| `ScrollProperties.OnlyScrolledEntryChanges` | Core.cs:105-110 | a call that moves writes only the scrolled key's entry and `lastIndex`, to a value within range; a call that does not move changes nothing; other entries keep their values |
| `ScrollProperties.RescanNotifications` | Core.cs:68-69 | with a listener, a move on `n` elements appends exactly `n - 1` calls `(index, 0)` … `(index, n - 2)` in order; no call otherwise |
| `ScrollProperties.DownAdvances` | Core.cs:127 | from an in-range index `i`, `k <= n` Downs reach `i + k`, or `i + k - n` after passing the end |
| `ScrollProperties.DownCyclesBack` | Core.cs:127 | `n` Downs on an `n`-element collection return to the starting index |
| `ScrollProperties.DownUndoesUp` | Core.cs:123-127 | from an in-range index, Up then Down returns to it, both as the result and as the stored index |
| `ScrollProperties.NoChildren` | Core.cs:90-91 | a null Transform or one without children yields null and changes nothing |
| `ScrollProperties.ChildrenFollowItemRules` | Core.cs:90-100 | the Transform overload leaves the same state as the object overload on `childCount` with no listener, and returns the child at that overload's result |
| `ScrollProperties.GetChildTargets` | Core.cs:148 | `GetIndex(t, k)` returns child `k` in range and the first child otherwise, and stores `k` only when `1 <= k < childCount` |
| `ScrollProperties.SetChildUnmatched` | Core.cs:155-160 | with no matching child the target is `childCount`, out of range, so nothing changes and `GetIndex(t, target)` returns the stale `lastIndex` |
| `ScrollProperties.SetChildMatched` | Core.cs:141-145 | a match at position `p >= 1` stores `p` and sets `lastIndex = p`; a match at position 0 is a peek, so nothing changes and `GetIndex` returns the stale `lastIndex` |

## Left out

- GroupTitles.cs is not part of this model. It consists of Unity Editor GUI callbacks, asset I/O, editor lifecycle hooks and floating-point gradient comparisons, with no scrolling logic.
- Reflection (`GetProperty("Length") ?? GetProperty("Count")`) is abstracted as the optional `count`. A null collection, a missing property and a throwing getter all become `None`.
- `GetHashCode` is abstracted as the `hash` field (the instance id, for a Transform). Distinct collections with equal hash codes share one entry, as in the source.
- Exceptions are modelled only by their effect: the catch blocks return 0 or null. `GetChild` on a stale index throws and is caught, so it yields `None`.
- The rescan delegate is a flag plus a ghost log of its arguments. What the listener does is not modelled, including a listener that calls back into the scroller.
- `SetIndex(Transform, Transform)` and `GetIndex(Transform, Transform)` have no catch. A null collection makes them throw to the caller, so the model takes a non-null Transform there.
- The target Transform is represented by its instance id. A null or destroyed target is treated as matching no child; Unity's overloaded `==` for destroyed objects is not modelled.
- ResultInRange: promises `[0, n - 1]` only when the index stored under the key is within range. The code returns a stale stored index unchanged on a peek or a refused move, for example after a list shrinks or when two collections share a hash code (`StaleIndexReturned`).
- DownCyclesBack: assumes the starting index is in range, for the same reason.
- C#'s default arguments (`step = 1` and `action = Continuous` on both `Collection` overloads, `action = Continuous` on the bool overloads) are not shown. Every call that relies on them equals the explicit call of the modelled method.
- Static state is one `Scroll` object. Nothing is concurrent: the source runs on Unity's single main thread.
