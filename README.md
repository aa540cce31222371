# ObservableVector, modelled in Dafny

This project models `ObservableVector<T>`, a growable sequence container that
tells its registered observers about every change. The model also covers the
notification vocabulary the container uses: the four change kinds
(`CollectionAction`), their display names (`to_string`) and the notification
record (`CollectionChangeNotification`).

The container owns two lists. The first is the element storage `data_`. The
second is a list of raw, non-owning observer pointers. Every mutator changes
the storage first. Then it walks the observer list in registration order and
calls each non-null entry synchronously with one notification:

| operation | new storage | notification |
|---|---|---|
| `PushBack(v)` | `v` appended | ADD, `[size - 1]` after the insert |
| `PopBack()` (non-empty only) | last element dropped | REMOVE, `[size]` after the removal |
| `Clear()` | empty | CLEAR, `[]`, also when already empty |
| copy or move `operator=` from another object | the other's elements | ASSIGN, `[]` |
| `operator=` from itself | unchanged | none |

`AddObserver` appends a pointer. It does not deduplicate, and a null pointer is
allowed. `RemoveObserver` erases every occurrence of a pointer. Neither method
sends a notification.

Files:

- `notifications.dfy` (module `Notifications`): the action kinds, the
  `ToString` display names, the notification record, observer handles
  (`ObserverRef`, where `Null` is the null pointer and `Ref(id)` is a pointer
  compared by identity), and `Delivery`, which records one callback.
- `observer_list.dfy` (module `ObserverList`): `RemoveAll` (erase-remove on
  the observer list) and `Deliveries` (the callbacks one dispatch makes).
  It also holds the lemmas about counts, order, duplicates and removal.
- `observable_vector.dfy` (module `Observable`): the class
  `ObservableVector<T>` with fields `data`, `observers` and `log`.
  - `log` records every callback the container has made, oldest first.
  - Each mutator's contract gives the new `data`. It also states that `log`
    grew by exactly `Deliveries(observers, n)` for that mutator's
    notification `n`.
  - The frame (`modifies`) shows which fields the mutator leaves alone.
    Assignment never touches `observers`. Observer registration never touches
    `data` or `log`.
- `scenario.dfy` (module `Scenario`): the demonstration program's call
  sequence, replayed against the model, plus a self-assignment scenario.

## Model

| member | source | states |
|---|---|---|
| Notifications.ToString | main.cpp:9-21 | ADD, REMOVE, CLEAR and ASSIGN map to exactly "add", "remove", "clear" and "assign", in both directions. So the mapping is injective, and the empty-string fallback is never reached for the four enumerators |
| ObserverList.RemoveAll | main.cpp:115-117 | erasing never makes the list longer |
| ObserverList.RemoveAllMembers | main.cpp:115-117 | after erasing `o`, `o` is no longer registered, and every other pointer is registered exactly when it was before |
| ObserverList.RemoveAllCount | main.cpp:115-117 | after erasing `o`, `o` occurs zero times, and every other pointer occurs as often as before |
| ObserverList.RemoveAllAppend | main.cpp:116 | erasing works piece by piece over a concatenation, so it never reorders across the pieces |
| ObserverList.RemoveAllKeepsOrder | main.cpp:116 | two surviving entries keep their relative order after erasing another pointer |
| ObserverList.RemoveAllAbsent | main.cpp:116 | erasing an unregistered pointer changes nothing |
| ObserverList.RemoveAllIdempotent | main.cpp:116 | erasing the same pointer twice gives the same list as erasing it once |
| ObserverList.Deliveries | main.cpp:78-82 | one dispatch makes at most one call per list entry |
| ObserverList.DeliveriesShape | main.cpp:78-82 | every call of one dispatch goes to a non-null registered pointer and carries the notification being dispatched |
| ObserverList.DeliveriesRecipients | main.cpp:78-82 | the observers called by one dispatch are exactly the non-null entries of the list, in registration order, with duplicates |
| ObserverList.DeliveriesCount | main.cpp:78-82 | an observer registered m times is called m times per dispatch; a null entry is never called |
| ObserverList.DeliveriesAppend | main.cpp:78-82 | dispatching over a concatenated list makes the calls for the first part, then the calls for the second |
| ObserverList.DeliveriesOrder | main.cpp:78-82 | an observer registered before another is called before it, for the same notification |
| ObserverList.DuplicateRegistration | main.cpp:111-113 | an observer appended twice gets every later notification twice, back to back |
| ObserverList.RemoveAllCommute | main.cpp:116 | erasing two pointers gives the same list in either order |
| ObserverList.DeliveriesAfterRemove | main.cpp:115-117 | after a pointer is erased, no dispatch calls it, however often it was registered; every other observer is called as before, in the same order |
| Observable.ObservableVector.constructor | main.cpp:38-39 | a new container is empty, with no observers and no callbacks made |
| Observable.ObservableVector.WithCount | main.cpp:41 | `count` equal elements of one unspecified value; nothing reported |
| Observable.ObservableVector.Filled | main.cpp:42 | `count` copies of `value`; nothing reported |
| Observable.ObservableVector.FromSeq | main.cpp:47-50 | the elements of the given list or range, in order; nothing reported |
| Observable.ObservableVector.Notify | main.cpp:78-82 | the range-for dispatch loop appends exactly `Deliveries(observers, n)` to the log and keeps the no-null-delivery invariant |
| Observable.ObservableVector.CopyAssign | main.cpp:52-62 | from another object: the elements become a copy of the other's elements, and each non-null observer gets ASSIGN `[]`; from itself: elements and log unchanged; observers never change |
| Observable.ObservableVector.MoveAssign | main.cpp:64-74 | from another object: the elements become the other's former elements, the other's elements are left unspecified, and each non-null observer gets ASSIGN `[]`; from itself: nothing changes |
| Observable.ObservableVector.PushBack | main.cpp:76-83 | `v` is appended (size grows by one), and each non-null observer in order gets ADD with the new last index |
| Observable.ObservableVector.PopBack | main.cpp:85-92 | on a non-empty container: the last element is dropped, and each non-null observer in order gets REMOVE with the size after removal |
| Observable.ObservableVector.Clear | main.cpp:94-101 | the container becomes empty, and each non-null observer in order gets CLEAR `[]`, whatever the prior size |
| Observable.ObservableVector.Size | main.cpp:103-105 | the number of elements, read without changing any state |
| Observable.ObservableVector.IsEmpty | main.cpp:107-109 | true exactly when `Size() == 0`, read without changing any state |
| Observable.ObservableVector.AddObserver | main.cpp:111-113 | the pointer is appended to the list (no deduplication, null allowed); elements and log unchanged |
| Observable.ObservableVector.RemoveObserver | main.cpp:115-117 | the list becomes `RemoveAll` of the old list; elements and log unchanged |
| Scenario.ReplayDemo | main.cpp:138-161 | the demonstration's observer sees exactly add [0], add [1], remove [1], clear, assign, assign, and the final contents are [7, 8, 9] |
| Scenario.ObservedEdits | main.cpp:144-149 | with one observer: append 1 and 2, remove the last, then clear; the observer sees add [0], add [1], remove [1], clear, and the vector ends empty |
| Scenario.UnobservedEdits | main.cpp:151-154 | with no observers registered: the appends of 3 and 4 change the elements and add no callback |
| Scenario.Assignments | main.cpp:156-161 | the observer is registered again: the copy assignment and the move assignment each deliver one assign, and the elements end as [7, 8, 9] |
| Scenario.SelfAssignment | main.cpp:52-74 | copy- and move-assigning a container to itself adds no callback and keeps its contents |

## Left out

- The printing `Observer` class and the `main` driver (main.cpp:124-162) are console output. `Scenario.ReplayDemo` replays `main`'s call sequence against the log instead.
- The `Allocator` template parameter and the constructors that take an allocator (main.cpp:38, 41-50) only choose a memory strategy and do not change behaviour.
- The two move constructors (main.cpp:44-45) read a member `other.data` that does not exist. They cannot be compiled once instantiated, so the model gives them no behaviour.
- Observer callbacks are modelled as recorded calls. A callback that mutates the container or the observer list while the loop dispatches, and virtual dispatch to the callback (main.cpp:28-32), are not modelled. main.cpp iterates the live vector and gives no guarantee here.
- Observable.ObservableVector.WithCount: main.cpp:41 value-initialises the elements (0 for `int`). The contract states only that there are `count` equal elements, because a generic Dafny type has no nameable default value. The count constructor needs some default value, so the class requires `T(0)`.
- Unsigned `size_t` arithmetic is modelled with `nat`. The only subtraction, `size() - 1` after an insert, cannot underflow.
- Observer lifetime (dangling pointers) is outside the model. A pointer is only an identity.
- Observable.ObservableVector.MoveAssign: main.cpp leaves the moved-from container's elements valid but unspecified. The contract leaves them unconstrained, even though the body empties them.
- Notifications.ToString: values of `CollectionAction` outside the four enumerators are not modelled. The enum is scoped, so its underlying type is `int`, and a cast such as `static_cast<CollectionAction>(4)` would reach the `""` fallback at main.cpp:20. No code in main.cpp creates such a value.
- Exceptions are not modelled. If `push_back` or the copy `data_ = other.data_` throws, no observer is told anything. If an observer's `CollectionChanged` throws, the remaining observers are skipped. Inside the `noexcept` `Clear` (main.cpp:94), such a throw terminates the program instead.
