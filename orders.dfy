/** The orders page (src/pages/Orders.tsx): which orders each tab lists and the
    labels and buttons drawn for an order. */
module Orders {
  import opened Wrappers
  import opened Seqs
  import opened Records

  datatype Tab = Buying | Selling

  /** The filter of `filteredOrders`: the buying tab lists the current user's
      purchases, the selling tab their sales; with nobody signed in neither matches. */
  predicate OnTab(me: Option<User>, tab: Tab, o: Order)
  {
    match tab
    case Buying => IsCurrentUser(o.buyerId, me)
    case Selling => IsCurrentUser(o.sellerId, me)
  }

  function FilteredOrders(orders: seq<Order>, tab: Tab, me: Option<User>): seq<Order>
  {
    Filter((o: Order) => OnTab(me, tab, o), orders)
  }

  /** The buying tab lists exactly the orders whose buyer is the current user, and
      in the order the API returned them. */
  lemma BuyingTabIsOwnPurchases(orders: seq<Order>, me: Option<User>)
    ensures forall i :: 0 <= i < |FilteredOrders(orders, Buying, me)| ==>
      var o := FilteredOrders(orders, Buying, me)[i]; o in orders && IsCurrentUser(o.buyerId, me)
    ensures forall i :: 0 <= i < |orders| && IsCurrentUser(orders[i].buyerId, me) ==>
      orders[i] in FilteredOrders(orders, Buying, me)
    ensures IsSubsequence(FilteredOrders(orders, Buying, me), orders)
    ensures forall o | o in orders ::
      multiset(FilteredOrders(orders, Buying, me))[o] == if IsCurrentUser(o.buyerId, me) then multiset(orders)[o] else 0
  {
    FilterIsSubsequence((o: Order) => OnTab(me, Buying, o), orders);
    FilterCounts((o: Order) => OnTab(me, Buying, o), orders);
  }

  /** The selling tab lists exactly the orders whose seller is the current user, in order. */
  lemma SellingTabIsOwnSales(orders: seq<Order>, me: Option<User>)
    ensures forall i :: 0 <= i < |FilteredOrders(orders, Selling, me)| ==>
      var o := FilteredOrders(orders, Selling, me)[i]; o in orders && IsCurrentUser(o.sellerId, me)
    ensures forall i :: 0 <= i < |orders| && IsCurrentUser(orders[i].sellerId, me) ==>
      orders[i] in FilteredOrders(orders, Selling, me)
    ensures IsSubsequence(FilteredOrders(orders, Selling, me), orders)
    ensures forall o | o in orders ::
      multiset(FilteredOrders(orders, Selling, me))[o] == if IsCurrentUser(o.sellerId, me) then multiset(orders)[o] else 0
  {
    FilterIsSubsequence((o: Order) => OnTab(me, Selling, o), orders);
    FilterCounts((o: Order) => OnTab(me, Selling, o), orders);
  }

  /** `getStatusText` */
  function StatusText(isCompleted: bool): (t: string)
    ensures t == "Completed" <==> isCompleted
    ensures t == "In Progress" <==> !isCompleted
  {
    if isCompleted then "Completed" else "In Progress"
  }

  /** The payment badge: a payment intent that is present and not the placeholder
      `"temporary"` counts as paid. */
  function PaymentText(paymentIntent: string): (t: string)
    ensures t == "Paid" <==> paymentIntent != "" && paymentIntent != "temporary"
    ensures t == "Pending" <==> paymentIntent == "" || paymentIntent == "temporary"
  {
    if paymentIntent != "" && paymentIntent != "temporary" then "Paid" else "Pending"
  }

  /** "Mark as Complete" is drawn only on the selling tab and only for an open order. */
  predicate ConfirmOffered(tab: Tab, o: Order)
  {
    tab == Selling && !o.isCompleted
  }

  /** The tabs drawn: every user has the buying tab; only a seller has the selling one. */
  function TabsOffered(me: Option<User>): (tabs: seq<Tab>)
    ensures Buying in tabs
    ensures Selling in tabs <==> me.Some? && me.value.isSeller
  {
    if me.Some? && me.value.isSeller then [Buying, Selling] else [Buying]
  }

  /** A listed order with a "Mark as Complete" button is an open sale of the current
      user, who is a seller whenever the tab that lists it is drawn. */
  lemma ConfirmOnlyOwnOpenSales(orders: seq<Order>, tab: Tab, me: Option<User>, o: Order)
    requires tab in TabsOffered(me)
    requires o in FilteredOrders(orders, tab, me) && ConfirmOffered(tab, o)
    ensures o in orders && IsCurrentUser(o.sellerId, me) && !o.isCompleted
    ensures me.Some? && me.value.isSeller
  {
    var f := FilteredOrders(orders, tab, me);
    var i :| 0 <= i < |f| && f[i] == o;
  }

  /** `order._id.slice(-8)`: the last eight characters, or the whole id when shorter. */
  function OrderIdSuffix(id: string): (r: string)
    ensures |r| == if |id| < 8 then |id| else 8
    ensures id == id[..|id| - |r|] + r
  {
    if |id| <= 8 then id else id[|id| - 8..]
  }

  /** The component state of the orders page. */
  class OrdersPage {
    var orders: seq<Order>
    var loading: bool
    var activeTab: Tab

    constructor ()
      ensures orders == [] && loading && activeTab == Buying
    {
      orders := [];
      loading := true;
      activeTab := Buying;
    }

    /** `fetchOrders`: GET /orders; the answer replaces the list, a failure keeps
        it, and loading ends either way. */
    method FetchOrders(response: Outcome<seq<Order>>)
      modifies this
      ensures orders == if response.Ok? then response.payload else old(orders)
      ensures !loading && activeTab == old(activeTab)
    {
      if response.Ok? {
        orders := response.payload;
      }
      loading := false;
    }

    /** A tab button. */
    method SetActiveTab(tab: Tab)
      modifies this
      ensures activeTab == tab && orders == old(orders) && loading == old(loading)
    {
      activeTab := tab;
    }

    /** `handleConfirmOrder`: PUT /orders/confirm/:id, and after a success the list
        is fetched again; a failure changes nothing. */
    method HandleConfirmOrder(orderId: string, confirm: Outcome<()>, refetch: Outcome<seq<Order>>)
      modifies this
      ensures confirm.Ok? ==> !loading && orders == (if refetch.Ok? then refetch.payload else old(orders))
      ensures confirm.Fail? ==> orders == old(orders) && loading == old(loading)
      ensures activeTab == old(activeTab)
    {
      if confirm.Ok? {
        FetchOrders(refetch);
      }
    }
  }
}
