/** The order page: dates, prices and the admin's dispatch button. */
module OrderScreen {
  import opened Js
  import opened Strings
  import opened Money
  import opened OrderModel
  import opened OrderController

  /** `date.slice(0, 16).replace('T', ' at ')`: the first 16 characters, with only the
      first `T` among them replaced. */
  function FormatDate(date: string): (r: string)
    ensures 'T' !in Take(date, 16) ==> r == Take(date, 16)
  {
    ReplaceFirst(Take(date, 16), 'T', " at ")
  }

  /** Only the first `T` of the kept characters is replaced. */
  lemma FormatDateFirstT(date: string, i: nat)
    requires i < |date| && i < 16 && date[i] == 'T' && 'T' !in date[..i]
    ensures FormatDate(date) == date[..i] + " at " + Take(date, 16)[i + 1..]
  {
    var d := Take(date, 16);
    assert d[..i] == date[..i];
    ReplaceFirstAt(d, 'T', " at ", i);
  }

  /** An ISO time `YYYY-MM-DDTHH:MM...` prints as `YYYY-MM-DD at HH:MM`. */
  lemma FormatIsoDate(day: string, time: string, rest: string)
    requires |day| == 10 && |time| == 5 && 'T' !in day
    ensures FormatDate(day + "T" + time + rest) == day + " at " + time
  {
    var date := day + "T" + time + rest;
    var d := Take(date, 16);
    assert d == day + "T" + time;
    assert d[10] == 'T' && d[..10] == day && d[11..] == time;
    ReplaceFirstAt(d, 'T', " at ", 10);
  }

  /** A line's price on the order page, and whether its unit price is shown under it. */
  function OrderLineText(item: OrderItem): (s: string)
    ensures ParseAmount(s) == Some(item.totalPrice * item.qty)
  {
    ParseAddDecimals(item.totalPrice * item.qty);
    AddDecimals(item.totalPrice * item.qty)
  }

  predicate ShowsUnitPrice(item: OrderItem)
  {
    item.qty > 1
  }

  /** The logged-in user, when there is one. */
  datatype UserInfo = UserInfo(id: string, isAdmin: bool)

  /** The dispatch button is offered to an admin for a paid order only. */
  predicate ShowDispatchButton(userInfo: Option<UserInfo>, order: Order)
  {
    userInfo.Some? && userInfo.value.isAdmin && order.isPaid
  }

  /** The button is disabled once the order is dispatched. */
  predicate DispatchDisabled(order: Order)
  {
    order.isDispatched
  }

  /** The page hides the button for an unpaid order, yet the API dispatches such an order
      when asked; after a dispatch the button is disabled. */
  lemma PageGuardsWhatApiDoesNot(userInfo: Option<UserInfo>, order: Order, now: int)
    ensures !order.isPaid ==> !ShowDispatchButton(userInfo, order) && Dispatched(order, now).isDispatched
    ensures DispatchDisabled(Dispatched(order, now))
    ensures ShowDispatchButton(userInfo, order) == ShowDispatchButton(userInfo, Dispatched(order, now))
  {
  }
}
