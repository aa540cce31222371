/** The notification vocabulary of an observable vector: the kinds of change,
    their display names, the notification record an observer receives, and the
    handles by which observers are registered. */
module Notifications {

  /** The four kinds of change a container reports. */
  datatype CollectionAction = Add | Remove | Clear | Assign

  /** Display name of an action. Each of the four enumerators has its own
      non-empty name, so the empty-string fallback after the switch is never
      reached for the four enumerators. */
  function ToString(action: CollectionAction): (s: string)
    ensures action == Add <==> s == "add"
    ensures action == Remove <==> s == "remove"
    ensures action == Clear <==> s == "clear"
    ensures action == Assign <==> s == "assign"
    ensures s != ""
  {
    match action
    case Add => "add"
    case Remove => "remove"
    case Clear => "clear"
    case Assign => "assign"
  }

  /** One change: what happened and which positions it concerns. Sizes are
      unsigned machine words in the C++ class (`size_t`); none of the indices
      the container reports can underflow, so `nat` is exact here. */
  datatype CollectionChangeNotification =
    CollectionChangeNotification(action: CollectionAction, itemIndexes: seq<nat>)

  /** A non-owning observer pointer, compared by identity only. `Null` is the
      null pointer, which may be registered and is skipped at dispatch. */
  datatype ObserverRef = Null | Ref(id: nat)

  /** One call of an observer's `CollectionChanged` callback. */
  datatype Delivery = Delivery(observer: ObserverRef, notification: CollectionChangeNotification)
}
