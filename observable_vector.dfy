/** The observable vector: an owned element buffer plus a list of observer
    pointers. Every mutator first changes the buffer and then dispatches one
    notification to every non-null observer, in registration order. */
module Observable {
  import opened Notifications
  import opened ObserverList

  class ObservableVector<T(0)> {
    /** The element storage. */
    var data: seq<T>
    /** The registered observer pointers, in registration order, with
        duplicates and null entries as registered. */
    var observers: seq<ObserverRef>
    /** Every callback this container has made, oldest first. An observer's
        reaction to a callback is outside the model; its call is recorded. */
    var log: seq<Delivery>

    /** Nothing is ever delivered to a null pointer. */
    ghost predicate Valid()
      reads this
    {
      forall k :: 0 <= k < |log| ==> log[k].observer != Null
    }

    /** An empty container with no observers. */
    constructor ()
      ensures Valid()
      ensures data == [] && observers == [] && log == []
    {
      data := [];
      observers := [];
      log := [];
    }

    /** `count` value-initialised elements: all equal to the element type's
        default value. */
    constructor WithCount(count: nat)
      ensures Valid()
      ensures |data| == count
      ensures forall i, j :: 0 <= i < count && 0 <= j < count ==> data[i] == data[j]
      ensures observers == [] && log == []
    {
      var d: T := *;
      data := seq(count, _ => d);
      observers := [];
      log := [];
    }

    /** `count` copies of `value`. */
    constructor Filled(count: nat, value: T)
      ensures Valid()
      ensures |data| == count && forall i :: 0 <= i < count ==> data[i] == value
      ensures observers == [] && log == []
    {
      data := seq(count, _ => value);
      observers := [];
      log := [];
    }

    /** The elements of an initialiser list, in order. */
    constructor FromSeq(init: seq<T>)
      ensures Valid()
      ensures data == init && observers == [] && log == []
    {
      data := init;
      observers := [];
      log := [];
    }

    /** The dispatch loop every mutator ends with: walk the observer list in
        order and call each non-null entry with `n`. */
    method Notify(n: CollectionChangeNotification)
      requires Valid()
      modifies this`log
      ensures Valid()
      ensures log == old(log) + Deliveries(observers, n)
    {
      var i := 0;
      while i < |observers|
        invariant 0 <= i <= |observers|
        invariant Valid()
        invariant log == old(log) + Deliveries(observers[..i], n)
      {
        DeliveriesAppend(observers[..i], [observers[i]], n);
        assert observers[..i + 1] == observers[..i] + [observers[i]];
        if observers[i] != Null {
          log := log + [Delivery(observers[i], n)];
        }
        i := i + 1;
      }
      assert observers[..i] == observers;
    }

    /** Copy assignment. From another container: take a copy of its elements
        (not its observers) and report ASSIGN with no indices. From itself:
        nothing happens. */
    method CopyAssign(other: ObservableVector<T>)
      requires Valid()
      modifies this`data, this`log
      ensures Valid()
      ensures other == this ==> data == old(data) && log == old(log)
      ensures other != this ==> data == other.data
      ensures other != this ==>
                log == old(log) + Deliveries(observers, CollectionChangeNotification(Assign, []))
    {
      if other != this {
        data := other.data;
        Notify(CollectionChangeNotification(Assign, []));
      }
    }

    /** Move assignment. From another container: take over its elements, leave
        the moved-from container's elements unspecified and its observers and
        its log alone, and report ASSIGN with no indices. From itself: nothing
        happens. */
    method MoveAssign(other: ObservableVector<T>)
      requires Valid()
      modifies this`data, this`log, other`data
      ensures Valid()
      ensures other == this ==> data == old(data) && log == old(log)
      ensures other != this ==> data == old(other.data)
      ensures other != this ==>
                log == old(log) + Deliveries(observers, CollectionChangeNotification(Assign, []))
    {
      if other != this {
        data := other.data;
        other.data := [];
        Notify(CollectionChangeNotification(Assign, []));
      }
    }

    /** Append `value` and report ADD at the new last index. */
    method PushBack(value: T)
      requires Valid()
      modifies this`data, this`log
      ensures Valid()
      ensures data == old(data) + [value]
      ensures log == old(log) + Deliveries(observers, CollectionChangeNotification(Add, [|data| - 1]))
    {
      data := data + [value];
      Notify(CollectionChangeNotification(Add, [|data| - 1]));
    }

    /** Drop the last element and report REMOVE at the size after removal,
        which is the index the removed element had. Calling this on an empty
        container is undefined, so callers must not. */
    method PopBack()
      requires Valid()
      requires |data| > 0
      modifies this`data, this`log
      ensures Valid()
      ensures data == old(data)[..|old(data)| - 1]
      ensures log == old(log) + Deliveries(observers, CollectionChangeNotification(Remove, [|data|]))
    {
      data := data[..|data| - 1];
      Notify(CollectionChangeNotification(Remove, [|data|]));
    }

    /** Remove every element and report CLEAR with no indices, even when the
        container was already empty. */
    method Clear()
      requires Valid()
      modifies this`data, this`log
      ensures Valid()
      ensures data == []
      ensures log == old(log) + Deliveries(observers, CollectionChangeNotification(CollectionAction.Clear, []))
    {
      data := [];
      Notify(CollectionChangeNotification(CollectionAction.Clear, []));
    }

    /** The number of elements. */
    function Size(): (n: nat)
      reads this
      ensures n == |data|
    {
      |data|
    }

    /** Whether there are no elements. */
    function IsEmpty(): (b: bool)
      reads this
      ensures b <==> Size() == 0
      ensures b <==> data == []
    {
      |data| == 0
    }

    /** Register `o` at the end of the list: no deduplication, null allowed,
        nothing reported. */
    method AddObserver(o: ObserverRef)
      requires Valid()
      modifies this`observers
      ensures Valid()
      ensures observers == old(observers) + [o]
    {
      observers := observers + [o];
    }

    /** Erase every registration of `o`, keeping the others in order; nothing
        reported. */
    method RemoveObserver(o: ObserverRef)
      requires Valid()
      modifies this`observers
      ensures Valid()
      ensures observers == RemoveAll(old(observers), o)
    {
      observers := RemoveAll(observers, o);
    }
  }
}
