/** The demonstration program's sequence of calls, replayed against the model,
    with the callbacks its observer receives and the final contents. */
module Scenario {
  import opened Notifications
  import opened ObserverList
  import opened Observable

  /** One observer `o` on an int vector `v`: two appends, a removal and a
      clear are seen; after `o` is unregistered two appends are not; after it
      is registered again, a copy and a move assignment are each seen once. */
  method ReplayDemo(o: ObserverRef) returns (trace: seq<Delivery>, final: seq<int>)
    requires o != Null
    ensures trace == [Delivery(o, CollectionChangeNotification(Add, [0])),
                      Delivery(o, CollectionChangeNotification(Add, [1])),
                      Delivery(o, CollectionChangeNotification(Remove, [1])),
                      Delivery(o, CollectionChangeNotification(CollectionAction.Clear, [])),
                      Delivery(o, CollectionChangeNotification(Assign, [])),
                      Delivery(o, CollectionChangeNotification(Assign, []))]
    ensures final == [7, 8, 9]
  {
    var v := new ObservableVector<int>();
    v.AddObserver(o);
    ObservedEdits(v, o);
    v.RemoveObserver(o);
    RemoveAllSingle(o, o);
    UnobservedEdits(v);
    v.AddObserver(o);
    assert v.observers == [o];
    Assignments(v, o);
    trace, final := v.log, v.data;
  }

  /** The demonstration's first phase, with `o` the only observer: append 1,
      append 2, remove the last element, clear. */
  method ObservedEdits(v: ObservableVector<int>, o: ObserverRef)
    requires v.Valid() && o != Null && v.observers == [o] && v.data == []
    modifies v
    ensures v.Valid() && v.observers == [o] && v.data == []
    ensures v.log == old(v.log) + [Delivery(o, CollectionChangeNotification(Add, [0])),
                                   Delivery(o, CollectionChangeNotification(Add, [1])),
                                   Delivery(o, CollectionChangeNotification(Remove, [1])),
                                   Delivery(o, CollectionChangeNotification(CollectionAction.Clear, []))]
  {
    DeliveriesSingle(o, CollectionChangeNotification(Add, [0]));
    DeliveriesSingle(o, CollectionChangeNotification(Add, [1]));
    DeliveriesSingle(o, CollectionChangeNotification(Remove, [1]));
    DeliveriesSingle(o, CollectionChangeNotification(CollectionAction.Clear, []));
    v.PushBack(1);
    v.PushBack(2);
    v.PopBack();
    v.Clear();
  }

  /** The second phase, with no observer left: append 3 and 4, which nobody
      is told about. */
  method UnobservedEdits(v: ObservableVector<int>)
    requires v.Valid() && v.observers == []
    modifies v
    ensures v.Valid() && v.observers == [] && v.data == old(v.data) + [3, 4]
    ensures v.log == old(v.log)
  {
    v.PushBack(3);
    v.PushBack(4);
  }

  /** The last phase, with `o` registered again: copy-assign from a vector
      holding 1, 2, 3, then move-assign from a temporary holding 7, 8, 9. */
  method Assignments(v: ObservableVector<int>, o: ObserverRef)
    requires v.Valid() && o != Null && v.observers == [o]
    modifies v
    ensures v.data == [7, 8, 9]
    ensures v.log == old(v.log) + [Delivery(o, CollectionChangeNotification(Assign, [])),
                                   Delivery(o, CollectionChangeNotification(Assign, []))]
  {
    DeliveriesSingle(o, CollectionChangeNotification(Assign, []));
    var v2 := new ObservableVector<int>.FromSeq([1, 2, 3]);
    v.CopyAssign(v2);
    var tmp := new ObservableVector<int>.FromSeq([7, 8, 9]);
    v.MoveAssign(tmp);
  }

  /** Self-assignment, copy or move, changes neither the elements nor the
      callbacks made, even with an observer registered. */
  method SelfAssignment(o: ObserverRef, init: seq<int>) returns (before: seq<Delivery>, after: seq<Delivery>, contents: seq<int>)
    ensures before == after
    ensures contents == init + [0]
  {
    var v := new ObservableVector<int>.FromSeq(init);
    v.AddObserver(o);
    v.PushBack(0);
    before := v.log;
    v.CopyAssign(v);
    v.MoveAssign(v);
    after, contents := v.log, v.data;
  }
}
