/** The two operations an observable vector performs on its observer list:
    erasing every occurrence of one pointer, and dispatching one notification
    to every non-null entry in registration order. */
module ObserverList {
  import opened Notifications

  /** The list with every occurrence of `o` erased and the other entries kept
      in their original order (the erase-remove idiom). */
  function RemoveAll(s: seq<ObserverRef>, o: ObserverRef): (r: seq<ObserverRef>)
    ensures |r| <= |s|
  {
    if s == [] then []
    else if s[0] == o then RemoveAll(s[1..], o)
    else [s[0]] + RemoveAll(s[1..], o)
  }

  /** After erasing `o` it is no longer registered, and every other pointer
      is registered exactly when it was before. */
  lemma {:induction false} RemoveAllMembers(s: seq<ObserverRef>, o: ObserverRef)
    ensures forall x :: x in RemoveAll(s, o) <==> x in s && x != o
  {
    if s != [] {
      RemoveAllMembers(s[1..], o);
      assert s == [s[0]] + s[1..];
    }
  }

  /** Erasing `o` removes all of its occurrences and keeps every other
      pointer exactly as often as it was registered. */
  lemma {:induction false} RemoveAllCount(s: seq<ObserverRef>, o: ObserverRef, x: ObserverRef)
    ensures multiset(RemoveAll(s, o))[x] == if x == o then 0 else multiset(s)[x]
  {
    if s != [] {
      RemoveAllCount(s[1..], o, x);
      assert s == [s[0]] + s[1..];
      if s[0] != o {
        assert RemoveAll(s, o) == [s[0]] + RemoveAll(s[1..], o);
      }
    }
  }

  /** Erasing works piecewise over a concatenation. */
  lemma {:induction false} RemoveAllAppend(a: seq<ObserverRef>, b: seq<ObserverRef>, o: ObserverRef)
    ensures RemoveAll(a + b, o) == RemoveAll(a, o) + RemoveAll(b, o)
  {
    if a != [] {
      assert (a + b)[1..] == a[1..] + b;
      RemoveAllAppend(a[1..], b, o);
    } else {
      assert a + b == b;
    }
  }

  /** Two surviving entries keep their relative order: `x` registered before
      `y` is still before `y`, with the survivors of each gap between them. */
  lemma RemoveAllKeepsOrder(a: seq<ObserverRef>, x: ObserverRef, b: seq<ObserverRef>,
                            y: ObserverRef, c: seq<ObserverRef>, o: ObserverRef)
    requires x != o && y != o
    ensures RemoveAll(a + [x] + b + [y] + c, o)
         == RemoveAll(a, o) + [x] + RemoveAll(b, o) + [y] + RemoveAll(c, o)
  {
    RemoveAllSingle(x, o);
    RemoveAllSingle(y, o);
    RemoveAllAppend(a, [x], o);
    RemoveAllAppend(a + [x], b, o);
    RemoveAllAppend(a + [x] + b, [y], o);
    RemoveAllAppend(a + [x] + b + [y], c, o);
  }

  /** Erasing `o` from a one-entry list keeps the entry exactly when it is
      not `o`. */
  lemma RemoveAllSingle(x: ObserverRef, o: ObserverRef)
    ensures RemoveAll([x], o) == if x == o then [] else [x]
  {
  }

  /** Erasing a pointer that is not registered changes nothing; in
      particular erasing twice is the same as erasing once. */
  lemma {:induction false} RemoveAllAbsent(s: seq<ObserverRef>, o: ObserverRef)
    requires o !in s
    ensures RemoveAll(s, o) == s
  {
    if s != [] {
      assert s == [s[0]] + s[1..];
      RemoveAllAbsent(s[1..], o);
    }
  }

  /** Erasing the same pointer a second time changes nothing. */
  lemma {:induction false} RemoveAllIdempotent(s: seq<ObserverRef>, o: ObserverRef)
    ensures RemoveAll(RemoveAll(s, o), o) == RemoveAll(s, o)
  {
    RemoveAllMembers(s, o);
    RemoveAllAbsent(RemoveAll(s, o), o);
  }

  /** The callback calls one dispatch of `n` makes, in order: one per non-null
      entry of the list (see DeliveriesShape and DeliveriesRecipients). */
  function Deliveries(observers: seq<ObserverRef>, n: CollectionChangeNotification): (d: seq<Delivery>)
    ensures |d| <= |observers|
  {
    if observers == [] then []
    else if observers[0] == Null then Deliveries(observers[1..], n)
    else [Delivery(observers[0], n)] + Deliveries(observers[1..], n)
  }

  /** Every call of one dispatch goes to a non-null registered pointer and
      carries the notification being dispatched. */
  lemma {:induction false} DeliveriesShape(observers: seq<ObserverRef>, n: CollectionChangeNotification)
    ensures forall k :: 0 <= k < |Deliveries(observers, n)| ==>
              Deliveries(observers, n)[k].notification == n
              && Deliveries(observers, n)[k].observer != Null
              && Deliveries(observers, n)[k].observer in observers
  {
    if observers != [] {
      DeliveriesShape(observers[1..], n);
    }
  }

  /** A dispatch to a single non-null observer is a single call. */
  lemma DeliveriesSingle(o: ObserverRef, n: CollectionChangeNotification)
    requires o != Null
    ensures Deliveries([o], n) == [Delivery(o, n)]
  {
  }

  /** Who was called, in order. */
  function Recipients(d: seq<Delivery>): (r: seq<ObserverRef>)
    ensures |r| == |d|
    ensures forall k :: 0 <= k < |d| ==> r[k] == d[k].observer
  {
    if d == [] then [] else [d[0].observer] + Recipients(d[1..])
  }

  /** A dispatch calls exactly the non-null entries of the list, in
      registration order, duplicates included. */
  lemma {:induction false} DeliveriesRecipients(observers: seq<ObserverRef>, n: CollectionChangeNotification)
    ensures Recipients(Deliveries(observers, n)) == RemoveAll(observers, Null)
  {
    if observers != [] {
      DeliveriesRecipients(observers[1..], n);
    }
  }

  /** A non-null observer registered `m` times is called `m` times by one
      dispatch; a null entry is never called. */
  lemma DeliveriesCount(observers: seq<ObserverRef>, n: CollectionChangeNotification, o: ObserverRef)
    ensures multiset(Recipients(Deliveries(observers, n)))[o]
         == if o == Null then 0 else multiset(observers)[o]
  {
    DeliveriesRecipients(observers, n);
    RemoveAllCount(observers, Null, o);
  }

  /** Dispatch over a concatenation is the dispatch over each part, in turn. */
  lemma {:induction false} DeliveriesAppend(a: seq<ObserverRef>, b: seq<ObserverRef>, n: CollectionChangeNotification)
    ensures Deliveries(a + b, n) == Deliveries(a, n) + Deliveries(b, n)
  {
    if a != [] {
      assert (a + b)[1..] == a[1..] + b;
      DeliveriesAppend(a[1..], b, n);
    } else {
      assert a + b == b;
    }
  }

  /** An observer registered before another is called before it. */
  lemma DeliveriesOrder(a: seq<ObserverRef>, o1: ObserverRef, b: seq<ObserverRef>,
                        o2: ObserverRef, c: seq<ObserverRef>, n: CollectionChangeNotification)
    requires o1 != Null && o2 != Null
    ensures Deliveries(a + [o1] + b + [o2] + c, n)
         == Deliveries(a, n) + [Delivery(o1, n)] + Deliveries(b, n) + [Delivery(o2, n)] + Deliveries(c, n)
  {
    DeliveriesSingle(o1, n);
    DeliveriesSingle(o2, n);
    DeliveriesAppend(a, [o1], n);
    DeliveriesAppend(a + [o1], b, n);
    DeliveriesAppend(a + [o1] + b, [o2], n);
    DeliveriesAppend(a + [o1] + b + [o2], c, n);
  }

  /** Registering the same observer twice makes every later dispatch call it
      twice, one call right after the other. */
  lemma DuplicateRegistration(observers: seq<ObserverRef>, o: ObserverRef, n: CollectionChangeNotification)
    requires o != Null
    ensures Deliveries(observers + [o] + [o], n) == Deliveries(observers, n) + [Delivery(o, n), Delivery(o, n)]
  {
    DeliveriesSingle(o, n);
    DeliveriesAppend(observers + [o], [o], n);
    DeliveriesAppend(observers, [o], n);
  }

  /** Erasing two pointers gives the same list in either order. */
  lemma {:induction false} RemoveAllCommute(s: seq<ObserverRef>, o: ObserverRef, p: ObserverRef)
    ensures RemoveAll(RemoveAll(s, o), p) == RemoveAll(RemoveAll(s, p), o)
  {
    if s != [] {
      RemoveAllCommute(s[1..], o, p);
    }
  }

  /** Once a pointer has been erased, no dispatch calls it, however often it
      had been registered, and every other observer is still called as
      before, in the same order. */
  lemma {:induction false} DeliveriesAfterRemove(observers: seq<ObserverRef>, o: ObserverRef, n: CollectionChangeNotification)
    ensures forall k :: 0 <= k < |Deliveries(RemoveAll(observers, o), n)| ==>
              Deliveries(RemoveAll(observers, o), n)[k].observer != o
    ensures Recipients(Deliveries(RemoveAll(observers, o), n))
         == RemoveAll(Recipients(Deliveries(observers, n)), o)
  {
    DeliveriesShape(RemoveAll(observers, o), n);
    RemoveAllMembers(observers, o);
    DeliveriesRecipients(RemoveAll(observers, o), n);
    DeliveriesRecipients(observers, n);
    RemoveAllCommute(observers, o, Null);
  }
}
