/**
 * The play queue: the items in their original order, the order the mode
 * traverses them in, the history of what was handed out, and a cursor.
 */
module Queue {
  import opened Wrappers
  import opened Mode
  import opened Item

  /**
   * `ap_shuffled()` hands back some permutation of its argument. The model takes
   * the shuffled array as an input and assumes nothing about its order.
   */
  predicate IsShuffleOf(shuffled: seq<AudioItem>, s: seq<AudioItem>)
  {
    multiset(shuffled) == multiset(s)
  }

  /** The delegate's answer to "should this item be considered?", true without a delegate. */
  predicate Considers(delegate: Option<AudioItem -> bool>, item: AudioItem)
  {
    match delegate
    case None => true
    case Some(f) => f(item)
  }

  /** Every item was built by a succeeding initialiser, so has at least one URL. */
  ghost predicate AllValid(s: seq<AudioItem>)
  {
    forall x | x in s :: x.Valid()
  }

  /** Items with equal multisets are valid together. */
  lemma AllValidPermutation(a: seq<AudioItem>, b: seq<AudioItem>)
    requires multiset(a) == multiset(b) && AllValid(a)
    ensures AllValid(b)
  {
    forall x | x in b ensures x.Valid() {
      assert x in multiset(b);
    }
  }

  /** The one-element sequence of a present item, the empty one otherwise. */
  function ToSeq(item: Option<AudioItem>): (s: seq<AudioItem>)
    ensures |s| <= 1 && (item.Some? <==> |s| == 1) && (item.Some? ==> s[0] == item.value)
  {
    if item.Some? then [item.value] else []
  }

  /** `firstIndex(of:)`, comparing by identity. */
  function FirstIndexOf(s: seq<AudioItem>, x: AudioItem): (r: Option<nat>)
    ensures r.Some? <==> x in s
    ensures r.Some? ==> r.value < |s| && s[r.value] == x && x !in s[..r.value]
  {
    if s == [] then None
    else if s[0] == x then Some(0)
    else
      var rest := FirstIndexOf(s[1..], x);
      if rest.None? then None
      else
        assert s[..rest.value + 1] == [s[0]] + s[1..][..rest.value];
        Some(rest.value + 1)
  }

  /** `remove(at:)` on an array. */
  function RemoveAt(s: seq<AudioItem>, i: nat): (r: seq<AudioItem>)
    requires i < |s|
    ensures |r| == |s| - 1
    ensures multiset(r) == multiset(s) - multiset{s[i]}
  {
    assert s == s[..i] + [s[i]] + s[i + 1..];
    s[..i] + s[i + 1..]
  }

  /**
   * Removing an entry of the traversal and the first equal entry of the
   * original order keeps the two permutations of each other, with valid items.
   */
  lemma {:induction false} RemoveKeepsPairing(q: seq<AudioItem>, items: seq<AudioItem>, index: nat)
    requires multiset(q) == multiset(items) && AllValid(q) && index < |q|
    ensures var i := FirstIndexOf(items, q[index]);
      i.Some? && multiset(RemoveAt(q, index)) == multiset(RemoveAt(items, i.value)) && AllValid(RemoveAt(q, index))
  {
    assert q[index] in multiset(items);
    var i := FirstIndexOf(items, q[index]);
    var r := RemoveAt(q, index);
    forall x | x in r
      ensures x.Valid()
    {
      assert x in multiset(r);
      assert x in multiset(q);
    }
  }

  /**
   * The first index at or after `i` whose item the delegate accepts; when there
   * is none, the end of the forward scan, `max(i, |q|)`.
   */
  function FirstAcceptedFrom(q: seq<AudioItem>, i: nat, delegate: Option<AudioItem -> bool>): (k: nat)
    ensures i <= k
    ensures k < |q| ==> Considers(delegate, q[k])
    ensures k >= |q| ==> k == if i < |q| then |q| else i
    ensures forall j :: i <= j < k && j < |q| ==> !Considers(delegate, q[j])
    decreases |q| - i
  {
    if i >= |q| then i
    else if Considers(delegate, q[i]) then i
    else FirstAcceptedFrom(q, i + 1, delegate)
  }

  /** The last index before `i` whose item the delegate accepts, or -1 when there is none. */
  function LastAcceptedBefore(q: seq<AudioItem>, i: nat, delegate: Option<AudioItem -> bool>): (k: int)
    requires i <= |q|
    ensures -1 <= k < i
    ensures k >= 0 ==> Considers(delegate, q[k])
    ensures forall j :: k < j < i ==> !Considers(delegate, q[j])
    decreases i
  {
    if i == 0 then -1
    else if Considers(delegate, q[i - 1]) then i - 1
    else LastAcceptedBefore(q, i - 1, delegate)
  }

  /** What a `nextItem`/`previousItem` call hands out, and where it leaves the cursor. */
  datatype Step = Step(item: Option<AudioItem>, nextPosition: nat)

  /** The indexing `nextItem` does in repeat mode stays in bounds. */
  predicate NextDefined(q: seq<AudioItem>, np: nat, mode: PlayerMode)
  {
    |q| > 0 && Contains(mode, Repeat) ==> np < |q|
  }

  /** Where the forward scan of `nextItem` starts: repeatAll wraps a cursor at or past the end to 0. */
  function ForwardStart(q: seq<AudioItem>, np: nat, mode: PlayerMode): nat
  {
    if Contains(mode, RepeatAll) && np >= |q| then 0 else np
  }

  /** Where the backward scan of `previousItem` starts: repeatAll wraps a cursor at 0 to the end. */
  function BackwardStart(q: seq<AudioItem>, np: nat, mode: PlayerMode): nat
  {
    if Contains(mode, RepeatAll) && np == 0 then |q| else np
  }

  /** The result of `nextItem`. */
  function NextStep(q: seq<AudioItem>, np: nat, mode: PlayerMode, delegate: Option<AudioItem -> bool>): (r: Step)
    requires NextDefined(q, np, mode)
    ensures r.item.Some? ==> r.item.value in q
  {
    if |q| == 0 then Step(None, np)
    else if Contains(mode, Repeat) then Step(Some(q[np]), np)
    else
      var start := ForwardStart(q, np, mode);
      var k := FirstAcceptedFrom(q, start, delegate);
      if k < |q| then Step(Some(q[k]), k + 1)
      else Step(None, if Contains(mode, RepeatAll) then 0 else k)
  }

  /** The indexing `previousItem` does stays in bounds. */
  predicate PreviousDefined(q: seq<AudioItem>, np: nat)
  {
    |q| > 0 ==> np <= |q|
  }

  /** The result of `previousItem`. */
  function PreviousStep(q: seq<AudioItem>, np: nat, mode: PlayerMode, delegate: Option<AudioItem -> bool>): (r: Step)
    requires PreviousDefined(q, np)
    ensures r.item.Some? ==> r.item.value in q
  {
    if |q| == 0 then Step(None, np)
    else if Contains(mode, Repeat) then Step(Some(q[if np == 0 then 0 else np - 1]), np)
    else
      var start := BackwardStart(q, np, mode);
      var k := LastAcceptedBefore(q, start, delegate);
      if k >= 0 then Step(Some(q[k]), k)
      else Step(None, if Contains(mode, RepeatAll) then |q| else 0)
  }

  /** On an empty traversal `nextItem` hands out nothing and keeps the cursor. */
  lemma NextOnEmpty(np: nat, mode: PlayerMode, delegate: Option<AudioItem -> bool>)
    ensures NextStep([], np, mode, delegate) == Step(None, np)
  {
  }

  /** In repeat mode `nextItem` hands out the item under the cursor, whatever the delegate says, and keeps the cursor. */
  lemma NextInRepeatMode(q: seq<AudioItem>, np: nat, mode: PlayerMode, delegate: Option<AudioItem -> bool>)
    requires Contains(mode, Repeat) && np < |q|
    ensures NextStep(q, np, mode, delegate) == Step(Some(q[np]), np)
  {
  }

  /**
   * Outside repeat mode `nextItem` hands out the first accepted item at or after
   * the scan start, leaves the cursor one past it and skips the rejected ones.
   */
  lemma NextIsFirstAccepted(q: seq<AudioItem>, np: nat, mode: PlayerMode, delegate: Option<AudioItem -> bool>)
    requires |q| > 0 && !Contains(mode, Repeat)
    ensures var st := NextStep(q, np, mode, delegate);
      var start := ForwardStart(q, np, mode);
      (st.item.Some? <==> exists k :: start <= k < |q| && Considers(delegate, q[k])) &&
      (st.item.Some? ==>
        (exists k :: start <= k < |q| && st.item.value == q[k] && st.nextPosition == k + 1 &&
          Considers(delegate, q[k]) && (forall j :: start <= j < k ==> !Considers(delegate, q[j]))))
  {
    var start := ForwardStart(q, np, mode);
    var k := FirstAcceptedFrom(q, start, delegate);
    if k < |q| {
      assert start <= k < |q| && Considers(delegate, q[k]);
    }
  }

  /**
   * When `nextItem` hands out nothing the cursor is at or past the end, except
   * under repeatAll, which puts it back to 0.
   */
  lemma NextNoneCursor(q: seq<AudioItem>, np: nat, mode: PlayerMode, delegate: Option<AudioItem -> bool>)
    requires |q| > 0 && !Contains(mode, Repeat)
    requires NextStep(q, np, mode, delegate).item.None?
    ensures Contains(mode, RepeatAll) ==> NextStep(q, np, mode, delegate).nextPosition == 0
    ensures !Contains(mode, RepeatAll) ==> NextStep(q, np, mode, delegate).nextPosition >= |q|
  {
  }

  /** Even under repeatAll `nextItem` hands out nothing when the delegate accepts no item. */
  lemma NextNoneWhenNothingAccepted(q: seq<AudioItem>, np: nat, mode: PlayerMode, delegate: Option<AudioItem -> bool>)
    requires NextDefined(q, np, mode) && !Contains(mode, Repeat)
    requires forall i :: 0 <= i < |q| ==> !Considers(delegate, q[i])
    ensures NextStep(q, np, mode, delegate).item.None?
  {
  }

  /** In repeat mode `previousItem` hands out the item before the cursor (or the first one) and keeps the cursor. */
  lemma PreviousInRepeatMode(q: seq<AudioItem>, np: nat, mode: PlayerMode, delegate: Option<AudioItem -> bool>)
    requires Contains(mode, Repeat) && 0 < |q| && np <= |q|
    ensures PreviousStep(q, np, mode, delegate) == Step(Some(q[if np == 0 then 0 else np - 1]), np)
  {
  }

  /**
   * Outside repeat mode `previousItem` hands out the last accepted item before
   * the scan start and leaves the cursor on it; with nothing accepted the cursor
   * ends at 0, or at the end under repeatAll.
   */
  lemma PreviousIsLastAccepted(q: seq<AudioItem>, np: nat, mode: PlayerMode, delegate: Option<AudioItem -> bool>)
    requires 0 < |q| && np <= |q| && !Contains(mode, Repeat)
    ensures var st := PreviousStep(q, np, mode, delegate);
      var start := BackwardStart(q, np, mode);
      (st.item.Some? <==> exists k :: 0 <= k < start && Considers(delegate, q[k])) &&
      (st.item.Some? ==>
        (st.nextPosition < start && st.item.value == q[st.nextPosition] &&
          Considers(delegate, q[st.nextPosition]) &&
          (forall j :: st.nextPosition < j < start ==> !Considers(delegate, q[j])))) &&
      (st.item.None? ==> st.nextPosition == if Contains(mode, RepeatAll) then |q| else 0)
  {
  }

  /** `hasNextItem` */
  function HasNext(q: seq<AudioItem>, np: nat, mode: PlayerMode): bool
  {
    |q| > 0 && (|q| > np || Contains(mode, Repeat) || Contains(mode, RepeatAll))
  }

  /** `hasPreviousItem` */
  function HasPrevious(q: seq<AudioItem>, np: nat, mode: PlayerMode): bool
  {
    |q| > 0 && (np > 0 || Contains(mode, Repeat) || Contains(mode, RepeatAll))
  }

  /**
   * `hasNextItem` and `hasPreviousItem` ignore the delegate: when it accepts
   * every item they say exactly whether `nextItem` and `previousItem` hand one out.
   */
  lemma HasNextPreviousAgree(q: seq<AudioItem>, np: nat, mode: PlayerMode, delegate: Option<AudioItem -> bool>)
    requires forall i :: 0 <= i < |q| ==> Considers(delegate, q[i])
    ensures NextDefined(q, np, mode) ==> (HasNext(q, np, mode) <==> NextStep(q, np, mode, delegate).item.Some?)
    ensures PreviousDefined(q, np) ==> (HasPrevious(q, np, mode) <==> PreviousStep(q, np, mode, delegate).item.Some?)
  {
  }

  /* The mode transitions `adapt(to:)` reacts to. */
  predicate EntersRepeatAll(oldMode: PlayerMode, newMode: PlayerMode) { !Contains(oldMode, RepeatAll) && Contains(newMode, RepeatAll) }
  predicate LeavesRepeat(oldMode: PlayerMode, newMode: PlayerMode) { Contains(oldMode, Repeat) && !Contains(newMode, Repeat) }
  predicate EntersRepeat(oldMode: PlayerMode, newMode: PlayerMode) { !Contains(oldMode, Repeat) && Contains(newMode, Repeat) }
  predicate LeavesShuffle(oldMode: PlayerMode, newMode: PlayerMode) { Contains(oldMode, Shuffle) && !Contains(newMode, Shuffle) }
  predicate EntersShuffle(oldMode: PlayerMode, newMode: PlayerMode) { !Contains(oldMode, Shuffle) && Contains(newMode, Shuffle) }

  /** The cursor after the repeatAll rule of `adapt(to:)`. */
  function RepeatAllRule(q: seq<AudioItem>, np: nat, oldMode: PlayerMode, newMode: PlayerMode): nat
    requires |q| > 0
  {
    if EntersRepeatAll(oldMode, newMode) then np % |q| else np
  }

  /** The last entry of the history, `historic.last`. */
  function Last(history: seq<AudioItem>): (r: Option<AudioItem>)
    ensures r.Some? <==> |history| > 0
    ensures r.Some? ==> r.value == history[|history| - 1]
  {
    if |history| == 0 then None else Some(history[|history| - 1])
  }

  /** The cursor after the repeat rule of `adapt(to:)`, applied to the cursor `np` left by the repeatAll rule. */
  function RepeatRule(q: seq<AudioItem>, history: seq<AudioItem>, np: nat, oldMode: PlayerMode, newMode: PlayerMode): nat
    requires |q| > 0 && (LeavesRepeat(oldMode, newMode) ==> np < |q|)
  {
    if LeavesRepeat(oldMode, newMode) && Last(history) == Some(q[np]) then np + 1
    else if EntersRepeat(oldMode, newMode) && np == |q| then np - 1
    else np
  }

  /** The indexing and slicing `adapt(to:)` does stay in bounds. */
  predicate AdaptDefined(q: seq<AudioItem>, history: seq<AudioItem>, np: nat, oldMode: PlayerMode, newMode: PlayerMode)
  {
    |q| > 0 ==>
      var np1 := RepeatAllRule(q, np, oldMode, newMode);
      (LeavesRepeat(oldMode, newMode) ==> np1 < |q|) &&
      (EntersShuffle(oldMode, newMode) ==> RepeatRule(q, history, np1, oldMode, newMode) <= |q|)
  }

  /** The traversal order and the cursor. */
  datatype Traversal = Traversal(queue: seq<AudioItem>, nextPosition: nat)

  /**
   * `adapt(to:)`: the traversal after the mode changed from `oldMode` to
   * `newMode`. `played` and `leftovers` are the shuffled halves used when
   * shuffle is switched on.
   */
  function Adapted(items: seq<AudioItem>, q: seq<AudioItem>, history: seq<AudioItem>, np: nat,
                   oldMode: PlayerMode, newMode: PlayerMode,
                   played: seq<AudioItem>, leftovers: seq<AudioItem>): Traversal
    requires AdaptDefined(q, history, np, oldMode, newMode)
  {
    if |q| == 0 then Traversal(q, np)
    else
      var np2 := RepeatRule(q, history, RepeatAllRule(q, np, oldMode, newMode), oldMode, newMode);
      if LeavesShuffle(oldMode, newMode) then
        var found := if |history| > 0 then FirstIndexOf(items, history[|history| - 1]) else None;
        Traversal(items, if found.Some? then found.value + 1 else np2)
      else if EntersShuffle(oldMode, newMode) then
        Traversal(played + leftovers, np2)
      else
        Traversal(q, np2)
  }

  /** The shuffled halves are shuffles of the traversal before and from the adapted cursor. */
  predicate ShufflesFit(q: seq<AudioItem>, history: seq<AudioItem>, np: nat, oldMode: PlayerMode, newMode: PlayerMode,
                        played: seq<AudioItem>, leftovers: seq<AudioItem>)
    requires AdaptDefined(q, history, np, oldMode, newMode)
  {
    |q| > 0 && EntersShuffle(oldMode, newMode) ==>
      var np2 := RepeatRule(q, history, RepeatAllRule(q, np, oldMode, newMode), oldMode, newMode);
      IsShuffleOf(played, q[..np2]) && IsShuffleOf(leftovers, q[np2..])
  }

  /** A mode change on an empty traversal changes nothing. */
  lemma AdaptEmptyIsNoop(items: seq<AudioItem>, history: seq<AudioItem>, np: nat, oldMode: PlayerMode, newMode: PlayerMode,
                         played: seq<AudioItem>, leftovers: seq<AudioItem>)
    ensures Adapted(items, [], history, np, oldMode, newMode, played, leftovers) == Traversal([], np)
  {
  }

  /** A mode change keeps the traversal a permutation of the items. */
  lemma AdaptKeepsItems(items: seq<AudioItem>, q: seq<AudioItem>, history: seq<AudioItem>, np: nat,
                        oldMode: PlayerMode, newMode: PlayerMode, played: seq<AudioItem>, leftovers: seq<AudioItem>)
    requires multiset(q) == multiset(items)
    requires AdaptDefined(q, history, np, oldMode, newMode)
    requires ShufflesFit(q, history, np, oldMode, newMode, played, leftovers)
    ensures multiset(Adapted(items, q, history, np, oldMode, newMode, played, leftovers).queue) == multiset(items)
  {
    if |q| > 0 && !LeavesShuffle(oldMode, newMode) && EntersShuffle(oldMode, newMode) {
      var np2 := RepeatRule(q, history, RepeatAllRule(q, np, oldMode, newMode), oldMode, newMode);
      assert q == q[..np2] + q[np2..];
    }
  }

  /**
   * With the shuffle and repeat flags left alone, switching repeatAll on puts
   * the cursor back inside the traversal, `nextPosition % |queue|`.
   */
  lemma AdaptEnteringRepeatAll(items: seq<AudioItem>, q: seq<AudioItem>, history: seq<AudioItem>, np: nat,
                               oldMode: PlayerMode, newMode: PlayerMode, played: seq<AudioItem>, leftovers: seq<AudioItem>)
    requires |q| > 0 && EntersRepeatAll(oldMode, newMode)
    requires Contains(oldMode, Repeat) == Contains(newMode, Repeat)
    requires Contains(oldMode, Shuffle) == Contains(newMode, Shuffle)
    ensures AdaptDefined(q, history, np, oldMode, newMode)
    ensures Adapted(items, q, history, np, oldMode, newMode, played, leftovers) == Traversal(q, np % |q|)
    ensures np % |q| < |q|
  {
  }

  /**
   * Switching repeat off moves past the item under the cursor when it is the
   * last one handed out; switching it on pulls a cursor at the end back onto the
   * last item.
   */
  lemma AdaptRepeatRules(items: seq<AudioItem>, q: seq<AudioItem>, history: seq<AudioItem>, np: nat,
                         oldMode: PlayerMode, newMode: PlayerMode, played: seq<AudioItem>, leftovers: seq<AudioItem>)
    requires |q| > 0 && np <= |q|
    requires Contains(oldMode, RepeatAll) == Contains(newMode, RepeatAll)
    requires Contains(oldMode, Shuffle) == Contains(newMode, Shuffle)
    requires LeavesRepeat(oldMode, newMode) ==> np < |q|
    ensures AdaptDefined(q, history, np, oldMode, newMode)
    ensures LeavesRepeat(oldMode, newMode) ==>
      Adapted(items, q, history, np, oldMode, newMode, played, leftovers).nextPosition ==
        if |history| > 0 && history[|history| - 1] == q[np] then np + 1 else np
    ensures EntersRepeat(oldMode, newMode) ==>
      Adapted(items, q, history, np, oldMode, newMode, played, leftovers).nextPosition ==
        if np == |q| then |q| - 1 else np
    ensures Adapted(items, q, history, np, oldMode, newMode, played, leftovers).queue == q
  {
    assert !EntersRepeatAll(oldMode, newMode) && !LeavesShuffle(oldMode, newMode) && !EntersShuffle(oldMode, newMode);
    assert RepeatAllRule(q, np, oldMode, newMode) == np;
  }

  /**
   * Switching shuffle off restores the original order and puts the cursor just
   * after the last item handed out, when it is still among the items.
   */
  lemma AdaptLeavingShuffle(items: seq<AudioItem>, q: seq<AudioItem>, history: seq<AudioItem>, np: nat,
                            oldMode: PlayerMode, newMode: PlayerMode, played: seq<AudioItem>, leftovers: seq<AudioItem>)
    requires |q| > 0 && LeavesShuffle(oldMode, newMode)
    requires AdaptDefined(q, history, np, oldMode, newMode)
    requires |history| > 0 && history[|history| - 1] in items
    ensures var t := Adapted(items, q, history, np, oldMode, newMode, played, leftovers);
      t.queue == items && 0 < t.nextPosition <= |items| && items[t.nextPosition - 1] == history[|history| - 1] &&
      history[|history| - 1] !in items[..t.nextPosition - 1]
  {
  }

  /**
   * Switching shuffle on keeps the cursor where the repeat rules left it and
   * shuffles the items before it and the items from it separately.
   */
  lemma AdaptEnteringShuffle(items: seq<AudioItem>, q: seq<AudioItem>, history: seq<AudioItem>, np: nat,
                             oldMode: PlayerMode, newMode: PlayerMode, played: seq<AudioItem>, leftovers: seq<AudioItem>)
    requires |q| > 0 && EntersShuffle(oldMode, newMode)
    requires AdaptDefined(q, history, np, oldMode, newMode)
    requires ShufflesFit(q, history, np, oldMode, newMode, played, leftovers)
    ensures var t := Adapted(items, q, history, np, oldMode, newMode, played, leftovers);
      var np2 := RepeatRule(q, history, RepeatAllRule(q, np, oldMode, newMode), oldMode, newMode);
      t.nextPosition == np2 && |t.queue| == |q| &&
      multiset(t.queue[..np2]) == multiset(q[..np2]) && multiset(t.queue[np2..]) == multiset(q[np2..])
  {
    var np2 := RepeatRule(q, history, RepeatAllRule(q, np, oldMode, newMode), oldMode, newMode);
    assert |played| == |multiset(played)| == np2;
    assert |leftovers| == |multiset(leftovers)| == |q| - np2;
    var t := played + leftovers;
    assert t[..np2] == played && t[np2..] == leftovers;
  }

  /** `AudioItemQueue`: the queue object the player drives. */
  class AudioItemQueue {
    /** The original items, in the order they were given. */
    var items: seq<AudioItem>
    /** The items in the order the mode traverses them. */
    var queue: seq<AudioItem>
    /** Every item handed out, oldest first. */
    var history: seq<AudioItem>
    /** The traversal index of the next item. */
    var nextPosition: nat
    var mode: PlayerMode
    /** The delegate's consider-predicate; `None` when there is no delegate. */
    var delegate: Option<AudioItem -> bool>

    /** The traversal is always a permutation of the items. */
    ghost predicate Valid()
      reads this
    {
      multiset(queue) == multiset(items) && AllValid(queue)
    }

    /** `init(_:_:)`: `shuffled` is what `ap_shuffled()` returned for the items. */
    constructor (items: seq<AudioItem>, mode: PlayerMode, shuffled: seq<AudioItem>)
      requires IsShuffleOf(shuffled, items) && AllValid(items)
      ensures Valid()
      ensures this.items == items && this.mode == mode && history == [] && nextPosition == 0 && delegate.None?
      ensures queue == if Contains(mode, Shuffle) then shuffled else items
    {
      this.items := items;
      this.mode := mode;
      queue := if Contains(mode, Shuffle) then shuffled else items;
      AllValidPermutation(items, shuffled);
      history := [];
      nextPosition := 0;
      delegate := None;
    }

    /** `shouldConsider(_:)` */
    predicate ShouldConsider(item: AudioItem)
      reads this
    {
      Considers(delegate, item)
    }

    /** `hasNextItem` */
    function HasNextItem(): bool
      reads this
    {
      HasNext(queue, nextPosition, mode)
    }

    /** `hasPreviousItem` */
    function HasPreviousItem(): bool
      reads this
    {
      HasPrevious(queue, nextPosition, mode)
    }

    /** `nextItem()`: hands out the next item, moving the cursor and recording the item in the history. */
    method NextItem() returns (item: Option<AudioItem>)
      requires NextDefined(queue, nextPosition, mode)
      modifies this
      ensures queue == old(queue) && items == old(items) && mode == old(mode) && delegate == old(delegate)
      ensures NextStep(queue, old(nextPosition), mode, delegate) == Step(item, nextPosition)
      ensures history == old(history) + ToSeq(item)
    {
      if |queue| == 0 {
        return None;
      }
      if Contains(mode, Repeat) {
        var current := queue[nextPosition];
        history := history + [current];
        return Some(current);
      }
      if Contains(mode, RepeatAll) && nextPosition >= |queue| {
        nextPosition := 0;
      }
      ghost var start := nextPosition;
      while nextPosition < |queue|
        invariant start <= nextPosition
        invariant nextPosition <= |queue| || nextPosition == start
        invariant FirstAcceptedFrom(queue, start, delegate) == FirstAcceptedFrom(queue, nextPosition, delegate)
        invariant history == old(history)
        invariant queue == old(queue) && items == old(items) && mode == old(mode) && delegate == old(delegate)
        decreases |queue| - nextPosition
      {
        var candidate := queue[nextPosition];
        nextPosition := nextPosition + 1;
        if ShouldConsider(candidate) {
          history := history + [candidate];
          return Some(candidate);
        }
      }
      if Contains(mode, RepeatAll) && nextPosition >= |queue| {
        nextPosition := 0;
      }
      return None;
    }

    /** `previousItem()`: hands out the previous item, moving the cursor back and recording the item. */
    method PreviousItem() returns (item: Option<AudioItem>)
      requires PreviousDefined(queue, nextPosition)
      modifies this
      ensures queue == old(queue) && items == old(items) && mode == old(mode) && delegate == old(delegate)
      ensures PreviousStep(queue, old(nextPosition), mode, delegate) == Step(item, nextPosition)
      ensures history == old(history) + ToSeq(item)
    {
      if |queue| == 0 {
        return None;
      }
      if Contains(mode, Repeat) {
        var current := queue[if nextPosition == 0 then 0 else nextPosition - 1];
        history := history + [current];
        return Some(current);
      }
      if Contains(mode, RepeatAll) && nextPosition == 0 {
        nextPosition := |queue|;
      }
      ghost var start := nextPosition;
      while nextPosition > 0
        invariant nextPosition <= start <= |queue|
        invariant LastAcceptedBefore(queue, start, delegate) == LastAcceptedBefore(queue, nextPosition, delegate)
        invariant history == old(history)
        invariant queue == old(queue) && items == old(items) && mode == old(mode) && delegate == old(delegate)
      {
        nextPosition := nextPosition - 1;
        var candidate := queue[nextPosition];
        if ShouldConsider(candidate) {
          history := history + [candidate];
          return Some(candidate);
        }
      }
      if Contains(mode, RepeatAll) && nextPosition == 0 {
        nextPosition := |queue|;
      }
      return None;
    }

    /** `add(_:)`: appends to both orders. */
    method Add(newItems: seq<AudioItem>)
      requires Valid() && AllValid(newItems)
      modifies this
      ensures Valid()
      ensures items == old(items) + newItems && queue == old(queue) + newItems
      ensures history == old(history) && nextPosition == old(nextPosition) && mode == old(mode) && delegate == old(delegate)
    {
      items := items + newItems;
      queue := queue + newItems;
    }

    /** `remove(at:)`: drops a traversal index and the first equal original item; the cursor is not adjusted. */
    method Remove(index: nat)
      requires Valid() && index < |queue|
      modifies this
      ensures Valid()
      ensures queue == RemoveAt(old(queue), index)
      ensures var i := FirstIndexOf(old(items), old(queue)[index]);
        i.Some? && items == RemoveAt(old(items), i.value)
      ensures history == old(history) && nextPosition == old(nextPosition) && mode == old(mode) && delegate == old(delegate)
    {
      RemoveKeepsPairing(queue, items, index);
      var i := FirstIndexOf(items, queue[index]);
      queue := RemoveAt(queue, index);
      if i.Some? {
        items := RemoveAt(items, i.value);
      }
    }

    /** Setting `mode`, whose observer runs `adapt(to:)` with the old mode. */
    method SetMode(newMode: PlayerMode, played: seq<AudioItem>, leftovers: seq<AudioItem>)
      requires Valid()
      requires AdaptDefined(queue, history, nextPosition, mode, newMode)
      requires ShufflesFit(queue, history, nextPosition, mode, newMode, played, leftovers)
      modifies this
      ensures Valid()
      ensures mode == newMode
      ensures Traversal(queue, nextPosition) ==
        Adapted(old(items), old(queue), old(history), old(nextPosition), old(mode), newMode, played, leftovers)
      ensures items == old(items) && history == old(history) && delegate == old(delegate)
    {
      ghost var after := Adapted(items, queue, history, nextPosition, mode, newMode, played, leftovers);
      AdaptKeepsItems(items, queue, history, nextPosition, mode, newMode, played, leftovers);
      AllValidPermutation(queue, after.queue);
      var oldMode := mode;
      mode := newMode;
      if |queue| == 0 {
        return;
      }
      ApplyCursorRules(oldMode);
      if LeavesShuffle(oldMode, mode) {
        queue := items;
        if |history| > 0 {
          var i := FirstIndexOf(queue, history[|history| - 1]);
          if i.Some? {
            nextPosition := i.value + 1;
          }
        }
      } else if EntersShuffle(oldMode, mode) {
        queue := played + leftovers;
      }
    }

    /** The repeatAll and repeat rules of `adapt(to:)`, which move only the cursor. */
    method ApplyCursorRules(oldMode: PlayerMode)
      requires |queue| > 0 && AdaptDefined(queue, history, nextPosition, oldMode, mode)
      modifies this`nextPosition
      ensures nextPosition == RepeatRule(queue, history, RepeatAllRule(queue, old(nextPosition), oldMode, mode), oldMode, mode)
    {
      if EntersRepeatAll(oldMode, mode) {
        nextPosition := nextPosition % |queue|;
      }
      if LeavesRepeat(oldMode, mode) && Last(history) == Some(queue[nextPosition]) {
        nextPosition := nextPosition + 1;
      } else if EntersRepeat(oldMode, mode) && nextPosition == |queue| {
        nextPosition := nextPosition - 1;
      }
    }
  }
}
