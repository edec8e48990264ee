/**
  The order list on the home tab: the per-order menu visibility map and
  the Accept/Reject actions of new orders.
  Source: screens/HomeScreen/OrderList.js.
 */
module OrderList {

  const NewType := "New"

  /** An order row as the list renders it; only the fields that steer behaviour. */
  datatype OrderItem = OrderItem(id: string, name: string, orderType: string)

  /** `visible[id]`: an id never opened reads as undefined, which hides the menu. */
  predicate Shown(visible: map<string, bool>, id: string) {
    id in visible && visible[id]
  }

  /** After `openMenu(id)` only that id's menu changes, and it shows. */
  lemma OpenShowsOnlyThatMenu(visible: map<string, bool>, id: string, other: string)
    ensures Shown(visible[id := true], id)
    ensures other != id ==> Shown(visible[id := true], other) == Shown(visible, other)
  {
  }

  /** Opening then closing a menu leaves it hidden; opening or closing twice is the same as once. */
  lemma OpenCloseLaws(visible: map<string, bool>, id: string)
    ensures !Shown(visible[id := true][id := false], id)
    ensures visible[id := true][id := true] == visible[id := true]
    ensures visible[id := false][id := false] == visible[id := false]
  {
  }

  /** The card actions: Accept and Reject, for new orders only. */
  function CardActions(item: OrderItem): (actions: seq<string>)
    ensures actions != [] <==> item.orderType == NewType
    ensures actions != [] ==> actions == ["Accept", "Reject"]
  {
    if item.orderType == NewType then ["Accept", "Reject"] else []
  }

  class OrderListView {
    var visible: map<string, bool>

    constructor ()
      ensures visible == map[]
      ensures forall id :: !MenuVisible(id)
    {
      visible := map[];
    }

    predicate MenuVisible(id: string)
      reads this
    {
      Shown(visible, id)
    }

    /** `openMenu`: a copy of the map with `id` set to true. */
    method OpenMenu(id: string)
      modifies this
      ensures visible == old(visible)[id := true]
      ensures MenuVisible(id)
      ensures forall other :: other != id ==> MenuVisible(other) == old(MenuVisible(other))
    {
      visible := visible[id := true];
    }

    /** `closeMenu`: a copy of the map with `id` set to false. */
    method CloseMenu(id: string)
      modifies this
      ensures visible == old(visible)[id := false]
      ensures !MenuVisible(id)
      ensures forall other :: other != id ==> MenuVisible(other) == old(MenuVisible(other))
    {
      visible := visible[id := false];
    }
  }
}
