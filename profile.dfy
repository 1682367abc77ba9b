/** The profile page's statistics (pages/Profile.tsx). */
module Profile {
  import opened Types
  import opened AppState

  /** `orders.reduce((sum, o) => sum + o.total, 0)`: a left fold from the oldest entry of the array. */
  function TotalSpent(orders: seq<Order>): int {
    if |orders| == 0 then 0 else TotalSpent(orders[..|orders| - 1]) + orders[|orders| - 1].total
  }

  /** Placing an order puts it at the front, and it adds its total to the amount spent. */
  lemma {:induction false} TotalSpentPrepend(o: Order, orders: seq<Order>)
    ensures TotalSpent([o] + orders) == o.total + TotalSpent(orders)
  {
    if |orders| > 0 {
      var init := orders[..|orders| - 1];
      TotalSpentPrepend(o, init);
      assert ([o] + orders)[..|orders|] == [o] + init;
    }
  }

  /** With no negative totals, the amount spent is never negative. */
  lemma {:induction false} TotalSpentNonNegative(orders: seq<Order>)
    requires forall i :: 0 <= i < |orders| ==> orders[i].total >= 0
    ensures TotalSpent(orders) >= 0
  {
    if |orders| > 0 {
      TotalSpentNonNegative(orders[..|orders| - 1]);
    }
  }

  /** The points needed for the next tier. */
  const NextTierXP: int := 10000

  /**
   * `currentXP`: one point per full ten spent, rounded down as `Math.floor`
   * does (Dafny's division by 10 rounds down for every sign), plus the
   * profile's loyalty points.
   */
  function CurrentXP(profile: UserProfile, orders: seq<Order>): (xp: int)
    ensures 10 * (xp - profile.loyaltyPoints) <= TotalSpent(orders) < 10 * (xp - profile.loyaltyPoints) + 10
  {
    TotalSpent(orders) / 10 + profile.loyaltyPoints
  }

  /** An order of total `t` raises the points by `t / 10` or `t / 10 + 1`, depending on the carry. */
  lemma OrderRaisesXP(profile: UserProfile, orders: seq<Order>, draft: OrderDraft, id: string, date: string, tracking: string)
    requires draft.total >= 0
    ensures var after := CurrentXP(profile, [NewOrder(draft, id, date, tracking)] + orders);
      draft.total / 10 <= after - CurrentXP(profile, orders) <= draft.total / 10 + 1
  {
    TotalSpentPrepend(NewOrder(draft, id, date, tracking), orders);
  }

  /** `progressPercent`: `Math.min(100, currentXP / 10000 * 100)`. */
  function ProgressPercent(xp: int): (r: real)
    ensures r <= 100.0
    ensures xp <= NextTierXP ==> r == (xp as real) / 100.0
    ensures xp >= NextTierXP ==> r == 100.0
  {
    var raw := (xp as real) / (NextTierXP as real) * 100.0;
    if raw < 100.0 then raw else 100.0
  }

  /** The bar never moves backwards as the points grow. */
  lemma ProgressMonotone(a: int, b: int)
    requires a <= b
    ensures ProgressPercent(a) <= ProgressPercent(b)
  {
  }

  /** The `Purchases` stat: one per order, whatever its status. */
  function Purchases(orders: seq<Order>): (n: nat)
    ensures n == |orders|
  {
    |orders|
  }

  /** Each placed order adds exactly one purchase. */
  lemma PurchasesCountOrders(orders: seq<Order>, draft: OrderDraft, id: string, date: string, tracking: string)
    ensures Purchases([NewOrder(draft, id, date, tracking)] + orders) == Purchases(orders) + 1
  {
  }
}
