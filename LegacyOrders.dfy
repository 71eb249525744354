/** `getStatusColor` of src/pages/Orders.jsx. */
module LegacyOrders {
  import opened Util
  import opened Notice
  import Orders

  /** `switch (status?.toLowerCase())`: a missing status and unknown texts fall to the default colour. */
  function GetStatusColor(status: Option<string>): (c: ChipColor)
    ensures c == SuccessColor <==> status.Some? && Lower(status.value) == "completed"
    ensures c == WarningColor <==> status.Some? && Lower(status.value) == "pending"
    ensures c == ErrorColor <==> status.Some? && Lower(status.value) == "cancelled"
    ensures c != InfoColor
  {
    match status
    case None => DefaultColor
    case Some(s) =>
      var l := Lower(s);
      if l == "completed" then SuccessColor
      else if l == "pending" then WarningColor
      else if l == "cancelled" then ErrorColor
      else DefaultColor
  }

  /** Matching ignores case: a status and its lower-cased form get the same colour. */
  lemma {:induction false} StatusColorIgnoresCase(s: string)
    ensures GetStatusColor(Some(s)) == GetStatusColor(Some(Lower(s)))
  {
    LowerIdempotent(s);
  }

  /** The default colour is what every status other than the three known ones gets. */
  lemma DefaultOtherwise(status: Option<string>)
    ensures GetStatusColor(status) == DefaultColor <==>
      status.None? || Lower(status.value) !in {"completed", "pending", "cancelled"}
  {
  }

  /**
   * Against the `statusColors` table of Orders.tsx: the two pages agree on
   * pending, completed and cancelled, and differ on processing, which this
   * page shows in the default colour.
   */
  lemma AgreesWithStatusColors(s: Orders.OrderStatus)
    ensures s != Orders.Processing ==> GetStatusColor(Some(Orders.StatusName(s))) == Orders.StatusColor(s)
    ensures s == Orders.Processing ==> GetStatusColor(Some(Orders.StatusName(s))) == DefaultColor
  {
    var n := Orders.StatusName(s);
    assert Lower(n) == n by {
      forall i | 0 <= i < |n| ensures LowerChar(n[i]) == n[i] {
      }
    }
  }
}
