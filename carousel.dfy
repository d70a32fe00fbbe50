/**
 * `CarouselDirective`: the rotation of a carousel over its items. The
 * directive keeps a current index and a context that exposes the current
 * item and index to the template. The autoplay timer is not modelled.
 */
module Carousel {
  import opened Optional

  /** `carouselItems[i]` in JavaScript: `undefined` (here `None`) outside the bounds. */
  function ItemAt<T>(items: seq<T>, i: int): (r: Option<T>)
    ensures r.Some? <==> 0 <= i < |items|
    ensures r.Some? ==> r.value == items[i]
  {
    if 0 <= i < |items| then Some(items[i]) else None
  }

  /** The index after `next`: one step forward, back to 0 once it reaches the length. */
  function NextIndex(index: int, length: nat): (r: int)
    ensures length > 0 && 0 <= index < length ==> 0 <= r < length
    ensures r == index + 1 || r == 0
    ensures index + 1 < length ==> r == index + 1
  {
    var i := index + 1;
    if i >= length then 0 else i
  }

  /** The index after `prev`: one step back, to the last item once it drops below 0. */
  function PrevIndex(index: int, length: nat): (r: int)
    ensures length > 0 && 0 <= index < length ==> 0 <= r < length
    ensures r == index - 1 || r == length - 1
    ensures index - 1 >= 0 ==> r == index - 1
  {
    var i := index - 1;
    if i < 0 then length - 1 else i
  }

  /** `prev` undoes `next` and `next` undoes `prev` on a valid index. */
  lemma PrevNextInverse(index: int, length: nat)
    requires 0 <= index < length
    ensures PrevIndex(NextIndex(index, length), length) == index
    ensures NextIndex(PrevIndex(index, length), length) == index
  {
  }

  /** `next` taken `k` times. */
  function NextTimes(index: int, length: nat, k: nat): int
    decreases k
  {
    if k == 0 then index else NextIndex(NextTimes(index, length, k - 1), length)
  }

  /** Steps of `next` compose: `a + b` steps are `a` steps, then `b` steps. */
  lemma {:induction false} NextTimesAdd(index: int, length: nat, a: nat, b: nat)
    ensures NextTimes(index, length, a + b) == NextTimes(NextTimes(index, length, a), length, b)
    decreases b
  {
    if b > 0 {
      NextTimesAdd(index, length, a, b - 1);
    }
  }

  /** Before reaching the end of the list, `k` steps of `next` advance the index by `k`. */
  lemma {:induction false} NextTimesAdvances(index: int, length: nat, k: nat)
    requires 0 <= index && index + k < length
    ensures NextTimes(index, length, k) == index + k
    decreases k
  {
    if k > 0 {
      NextTimesAdvances(index, length, k - 1);
    }
  }

  /** The rotation is a cycle: `length` steps of `next` return to the starting item. */
  lemma NextTimesCycle(index: int, length: nat)
    requires 0 <= index < length
    ensures NextTimes(index, length, length) == index
  {
    var toEnd := length - 1 - index;
    NextTimesAdvances(index, length, toEnd);
    assert NextTimes(index, length, toEnd + 1) == 0;
    NextTimesAdd(index, length, toEnd + 1, index);
    if index > 0 {
      NextTimesAdvances(0, length, index);
    }
  }

  /** The context handed to the template: the current item and its index. */
  datatype CarouselContext<T> = CarouselContext(item: Option<T>, index: int)

  class CarouselDirective<T> {
    /** The items to display (`carouselFrom`). */
    const items: seq<T>
    /** The current rotation index. */
    var index: int
    /** The template context; absent until `NgOnInit`. */
    var context: Option<CarouselContext<T>>

    /** On a non-empty list the index stays within bounds; on an empty one it only takes -1 or 0. */
    ghost predicate Valid()
      reads this
    {
      if |items| > 0 then 0 <= index < |items| else -1 <= index <= 0
    }

    /** Once created, the context mirrors the current index and the item there. */
    ghost predicate Mirrored()
      reads this
    {
      context.Some? ==> context.value == CarouselContext(ItemAt(items, index), index)
    }

    constructor (items: seq<T>)
      ensures this.items == items && index == 0 && context == None
      ensures Valid() && Mirrored()
    {
      this.items := items;
      index := 0;
      context := None;
    }

    /** `ngOnInit`: the context shows the first item at index 0; the index field itself is not reset. */
    method NgOnInit()
      modifies this
      ensures index == old(index)
      ensures context == Some(CarouselContext(ItemAt(items, 0), 0))
      ensures old(index) == 0 ==> Mirrored()
      ensures |items| > 0 ==> context.value.item == Some(items[0])
    {
      context := Some(CarouselContext(ItemAt(items, 0), 0));
    }

    /** `next`: advance with wrap-around and publish the new position. */
    method Next()
      requires context.Some?
      modifies this
      ensures index == NextIndex(old(index), |items|)
      ensures context == Some(CarouselContext(ItemAt(items, index), index))
      ensures Mirrored()
      ensures old(Valid()) ==> Valid()
    {
      index := index + 1;
      if index >= |items| {
        index := 0;
      }
      context := Some(context.value.(item := ItemAt(items, index)));
      context := Some(context.value.(index := index));
    }

    /** `prev`: step back with wrap-around and publish the new position. */
    method Prev()
      requires context.Some?
      modifies this
      ensures index == PrevIndex(old(index), |items|)
      ensures context == Some(CarouselContext(ItemAt(items, index), index))
      ensures Mirrored()
      ensures old(Valid()) ==> Valid()
    {
      index := index - 1;
      if index < 0 {
        index := |items| - 1;
      }
      context := Some(context.value.(item := ItemAt(items, index)));
      context := Some(context.value.(index := index));
    }
  }
}
