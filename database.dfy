/** The order-fact transform of src/database.py (`process_data`): eight raw
    tables are joined and aggregated into one row per order with a fixed set
    of twenty columns. Money is an exact `real`, a timestamp an `int`. */
module Database {
  import opened Table

  // ---------------------------------------------------------------------
  // Raw tables (the columns `process_data` reads)
  // ---------------------------------------------------------------------

  datatype Customer = Customer(customerId: string, customerUniqueId: string, customerCity: string)

  datatype Order = Order(
    orderId: string,
    customerId: string,
    orderStatus: string,
    purchaseTimestamp: int,
    approvedAt: Option<int>,
    deliveredCarrierDate: Option<int>,
    deliveredCustomerDate: Option<int>,
    estimatedDeliveryDate: int)

  datatype OrderItem = OrderItem(
    orderId: string, orderItemId: int, productId: string, sellerId: string, price: real, freightValue: real)

  datatype Payment = Payment(orderId: string, paymentInstallments: int, paymentValue: real)

  datatype Review = Review(orderId: string, reviewScore: int)

  datatype Product = Product(productId: string, productCategoryName: Option<string>)

  datatype Seller = Seller(sellerId: string, sellerCity: string)

  datatype Translation = Translation(productCategoryName: string, productCategoryNameEnglish: string)

  /** The eight tables `process_data` receives, by their names in `data_frames`. */
  datatype RawTables = RawTables(
    customers: seq<Customer>,
    orders: seq<Order>,
    orderItems: seq<OrderItem>,
    payments: seq<Payment>,
    reviews: seq<Review>,
    products: seq<Product>,
    sellers: seq<Seller>,
    productTranslation: seq<Translation>)

  // ---------------------------------------------------------------------
  // Intermediate tables
  // ---------------------------------------------------------------------

  /** A line item left-joined with its product. */
  datatype ItemWithProduct = ItemWithProduct(item: OrderItem, product: Option<Product>)

  /** One row of `order_items_agg`. */
  datatype ItemAgg = ItemAgg(
    orderId: string, price: real, freightValue: real, productId: string,
    productCategoryName: Option<string>, sellerId: string, itemQuantity: nat)

  /** One row of `payments_agg`. */
  datatype PaymentAgg = PaymentAgg(orderId: string, paymentInstallments: int, paymentValue: real)

  /** One row of `reviews_agg`. */
  datatype ReviewAgg = ReviewAgg(orderId: string, reviewScore: int)

  /** A row of `orders_full`: an order with whatever each left join attached to it. */
  datatype Wide = Wide(
    order: Order,
    customer: Option<Customer>,
    items: Option<ItemAgg>,
    payments: Option<PaymentAgg>,
    seller: Option<Seller>,
    reviews: Option<ReviewAgg>,
    translation: Option<Translation>)

  /** A row of the final orders table: exactly the twenty projected columns.
      No join key that is not projected (such as `customer_id`) survives. */
  datatype OrderFact = OrderFact(
    orderId: string,
    customerUniqueId: Option<string>,
    orderStatus: string,
    purchaseTimestamp: int,
    approvedAt: Option<int>,
    deliveredCarrierDate: Option<int>,
    deliveredCustomerDate: Option<int>,
    estimatedDeliveryDate: int,
    customerCity: Option<string>,
    price: Option<real>,
    freightValue: Option<real>,
    productId: Option<string>,
    productCategoryName: Option<string>,
    sellerId: Option<string>,
    itemQuantity: Option<nat>,
    paymentInstallments: Option<int>,
    paymentValue: Option<real>,
    reviewScore: Option<int>,
    sellerCity: Option<string>,
    productCategoryNameEnglish: Option<string>)

  // ---------------------------------------------------------------------
  // Keys, columns and combiners
  // ---------------------------------------------------------------------

  function OrderCustomerKey(o: Order): Option<string> { Some(o.customerId) }
  function CustomerKey(c: Customer): string { c.customerId }
  function WithCustomer(o: Order, c: Option<Customer>): Wide { Wide(o, c, None, None, None, None, None) }

  function ItemProductKey(i: OrderItem): Option<string> { Some(i.productId) }
  function ProductKey(p: Product): string { p.productId }
  function WithProduct(i: OrderItem, p: Option<Product>): ItemWithProduct { ItemWithProduct(i, p) }

  function ItemOrder(i: OrderItem): string { i.orderId }
  function ItemPrice(i: OrderItem): Option<real> { Some(i.price) }
  function ItemFreight(i: OrderItem): Option<real> { Some(i.freightValue) }
  function JoinedOrder(r: ItemWithProduct): string { r.item.orderId }
  function JoinedPrice(r: ItemWithProduct): Option<real> { Some(r.item.price) }
  function JoinedFreight(r: ItemWithProduct): Option<real> { Some(r.item.freightValue) }

  function PaymentOrder(p: Payment): string { p.orderId }
  function PaymentValue(p: Payment): Option<real> { Some(p.paymentValue) }
  function ReviewOrder(r: Review): string { r.orderId }
  function ReviewScore(r: Review): Option<real> { Some(r.reviewScore as real) }

  function SellerKey(s: Seller): string { s.sellerId }
  function TranslationKey(t: Translation): string { t.productCategoryName }

  /** The Portuguese category of a joined product; null when no product matched. */
  function CategoryOf(p: Option<Product>): Option<string>
  {
    if p.Some? then p.value.productCategoryName else None
  }

  function WideOrderKey(w: Wide): Option<string> { Some(w.order.orderId) }
  /** `seller_id` of the growing table: null when the order had no items. */
  function WideSellerKey(w: Wide): Option<string> { if w.items.Some? then Some(w.items.value.sellerId) else None }
  /** `product_category_name` of the growing table: null when the order had no items. */
  function WideCategoryKey(w: Wide): Option<string> { if w.items.Some? then w.items.value.productCategoryName else None }

  function ItemAggKey(a: ItemAgg): string { a.orderId }
  function PaymentAggKey(a: PaymentAgg): string { a.orderId }
  function ReviewAggKey(a: ReviewAgg): string { a.orderId }

  function WithItems(w: Wide, a: Option<ItemAgg>): Wide { w.(items := a) }
  function WithPayments(w: Wide, a: Option<PaymentAgg>): Wide { w.(payments := a) }
  function WithSeller(w: Wide, s: Option<Seller>): Wide { w.(seller := s) }
  function WithReviews(w: Wide, a: Option<ReviewAgg>): Wide { w.(reviews := a) }
  function WithTranslation(w: Wide, t: Option<Translation>): Wide { w.(translation := t) }

  // ---------------------------------------------------------------------
  // Aggregation per order
  // ---------------------------------------------------------------------

  /** `cast(pl.Int32)` of a float: truncation toward zero. */
  function TruncateToInt(x: real): (n: int)
    ensures 0.0 <= x ==> n as real <= x < n as real + 1.0
    ensures x < 0.0 ==> n as real - 1.0 < x <= n as real
  {
    if x >= 0.0 then x.Floor else -((-x).Floor)
  }

  lemma TruncationExamples()
    ensures TruncateToInt(4.9) == 4
    ensures TruncateToInt(-4.9) == -4
  {
  }

  /** `order_items_with_products`. */
  function ItemsWithProducts(t: RawTables): seq<ItemWithProduct>
  {
    LeftJoin(t.orderItems, t.products, ItemProductKey, ProductKey, WithProduct)
  }

  /** One row of `order_items_agg` from the non-empty group of order `id`:
      sums, the first item's product, category and seller, and the item count. */
  function AggregateItems(id: string, g: seq<ItemWithProduct>): ItemAgg
    requires g != []
  {
    ItemAgg(id, SumOf(g, JoinedPrice), SumOf(g, JoinedFreight), g[0].item.productId,
            CategoryOf(g[0].product), g[0].item.sellerId, |g|)
  }

  /** `order_items_agg`: one row per order id occurring among the items. */
  function ItemsAgg(t: RawTables): seq<ItemAgg>
  {
    GroupItems(ItemsWithProducts(t))
  }

  /** The group-by of the joined item rows on `order_id`. */
  function GroupItems(rows: seq<ItemWithProduct>): seq<ItemAgg>
  {
    var ks := GroupKeys(rows, JoinedOrder);
    seq(|ks|, i requires 0 <= i < |ks| => AggregateItems(ks[i], Filter(rows, JoinedOrder, ks[i])))
  }

  function AggregatePayments(id: string, g: seq<Payment>): PaymentAgg
    requires g != []
  {
    PaymentAgg(id, g[0].paymentInstallments, SumOf(g, PaymentValue))
  }

  /** `payments_agg`: first installment count and summed value per order id. */
  function PaymentsAgg(t: RawTables): seq<PaymentAgg>
  {
    var ks := GroupKeys(t.payments, PaymentOrder);
    seq(|ks|, i requires 0 <= i < |ks| => AggregatePayments(ks[i], Filter(t.payments, PaymentOrder, ks[i])))
  }

  /** The mean review score of a non-empty group, truncated to an integer. */
  function AggregateReviews(id: string, g: seq<Review>): ReviewAgg
    requires g != []
  {
    ReviewAgg(id, TruncateToInt(SumOf(g, ReviewScore) / |g| as real))
  }

  /** `reviews_agg`: the truncated mean score per order id. */
  function ReviewsAgg(t: RawTables): seq<ReviewAgg>
  {
    var ks := GroupKeys(t.reviews, ReviewOrder);
    seq(|ks|, i requires 0 <= i < |ks| => AggregateReviews(ks[i], Filter(t.reviews, ReviewOrder, ks[i])))
  }

  /** Looking an order up in `order_items_agg` finds the aggregate of its
      group, and null exactly when it has no item rows. */
  lemma ItemsAggLookup(rows: seq<ItemWithProduct>, id: string)
    ensures UniqueKeys(GroupItems(rows), ItemAggKey)
    ensures var g := Filter(rows, JoinedOrder, id);
            Lookup(GroupItems(rows), ItemAggKey, Some(id)) == if g == [] then None else Some(AggregateItems(id, g))
  {
    var r := GroupItems(rows);
    GroupedLookup(rows, JoinedOrder, r, ItemAggKey, id);
    if Filter(rows, JoinedOrder, id) != [] {
      var i :| 0 <= i < |r| && GroupKeys(rows, JoinedOrder)[i] == id && Lookup(r, ItemAggKey, Some(id)) == Some(r[i]);
    }
  }

  /** Looking an order up in `payments_agg`. */
  lemma PaymentsAggLookup(t: RawTables, id: string)
    ensures UniqueKeys(PaymentsAgg(t), PaymentAggKey)
    ensures var g := Filter(t.payments, PaymentOrder, id);
            Lookup(PaymentsAgg(t), PaymentAggKey, Some(id)) == if g == [] then None else Some(AggregatePayments(id, g))
  {
    var r := PaymentsAgg(t);
    GroupedLookup(t.payments, PaymentOrder, r, PaymentAggKey, id);
    if Filter(t.payments, PaymentOrder, id) != [] {
      var i :| 0 <= i < |r| && GroupKeys(t.payments, PaymentOrder)[i] == id && Lookup(r, PaymentAggKey, Some(id)) == Some(r[i]);
    }
  }

  /** Looking an order up in `reviews_agg`. */
  lemma ReviewsAggLookup(t: RawTables, id: string)
    ensures UniqueKeys(ReviewsAgg(t), ReviewAggKey)
    ensures var g := Filter(t.reviews, ReviewOrder, id);
            Lookup(ReviewsAgg(t), ReviewAggKey, Some(id)) == if g == [] then None else Some(AggregateReviews(id, g))
  {
    var r := ReviewsAgg(t);
    GroupedLookup(t.reviews, ReviewOrder, r, ReviewAggKey, id);
    if Filter(t.reviews, ReviewOrder, id) != [] {
      var i :| 0 <= i < |r| && GroupKeys(t.reviews, ReviewOrder)[i] == id && Lookup(r, ReviewAggKey, Some(id)) == Some(r[i]);
    }
  }

  /** The product join keeps every item's order id and brings in no other. */
  lemma ItemsWithProductsKeepsOrders(t: RawTables, id: string)
    ensures HasKey(ItemsWithProducts(t), JoinedOrder, id) <==> HasKey(t.orderItems, ItemOrder, id)
  {
    LeftJoinKeepsKeys(t.orderItems, t.products, ItemProductKey, ProductKey, WithProduct, ItemOrder, JoinedOrder, id);
  }

  /** `order_items_agg` has one row for each order with item rows, and no other. */
  lemma ItemsAggOrders(t: RawTables, id: string)
    ensures UniqueKeys(ItemsAgg(t), ItemAggKey)
    ensures HasKey(ItemsAgg(t), ItemAggKey, id) <==> HasKey(t.orderItems, ItemOrder, id)
  {
    var rows := ItemsWithProducts(t);
    GroupViewKeys(rows, JoinedOrder, GroupItems(rows), ItemAggKey);
    GroupViewHasKey(rows, JoinedOrder, GroupItems(rows), ItemAggKey, id);
    ItemsWithProductsKeepsOrders(t, id);
  }

  /** `payments_agg` has one row for each order with payments, and no other. */
  lemma PaymentsAggOrders(t: RawTables, id: string)
    ensures UniqueKeys(PaymentsAgg(t), PaymentAggKey)
    ensures HasKey(PaymentsAgg(t), PaymentAggKey, id) <==> HasKey(t.payments, PaymentOrder, id)
  {
    GroupViewKeys(t.payments, PaymentOrder, PaymentsAgg(t), PaymentAggKey);
    GroupViewHasKey(t.payments, PaymentOrder, PaymentsAgg(t), PaymentAggKey, id);
  }

  /** `reviews_agg` has one row for each order with reviews, and no other. */
  lemma ReviewsAggOrders(t: RawTables, id: string)
    ensures UniqueKeys(ReviewsAgg(t), ReviewAggKey)
    ensures HasKey(ReviewsAgg(t), ReviewAggKey, id) <==> HasKey(t.reviews, ReviewOrder, id)
  {
    GroupViewKeys(t.reviews, ReviewOrder, ReviewsAgg(t), ReviewAggKey);
    GroupViewHasKey(t.reviews, ReviewOrder, ReviewsAgg(t), ReviewAggKey, id);
  }

  // ---------------------------------------------------------------------
  // The transform
  // ---------------------------------------------------------------------

  /** The `select` of the twenty output columns from a row of `orders_full`.
      The item columns all come from `order_items_agg`, so they are null together. */
  function Project(w: Wide): (f: OrderFact)
    ensures f.orderId == w.order.orderId
    ensures f.productId.Some? <==> f.price.Some?
    ensures f.productId.Some? <==> f.freightValue.Some?
    ensures f.productId.Some? <==> f.sellerId.Some?
    ensures f.productId.Some? <==> f.itemQuantity.Some?
    ensures f.productId.None? ==> f.productCategoryName.None?
  {
    OrderFact(
      w.order.orderId,
      if w.customer.Some? then Some(w.customer.value.customerUniqueId) else None,
      w.order.orderStatus,
      w.order.purchaseTimestamp,
      w.order.approvedAt,
      w.order.deliveredCarrierDate,
      w.order.deliveredCustomerDate,
      w.order.estimatedDeliveryDate,
      if w.customer.Some? then Some(w.customer.value.customerCity) else None,
      if w.items.Some? then Some(w.items.value.price) else None,
      if w.items.Some? then Some(w.items.value.freightValue) else None,
      if w.items.Some? then Some(w.items.value.productId) else None,
      if w.items.Some? then w.items.value.productCategoryName else None,
      if w.items.Some? then Some(w.items.value.sellerId) else None,
      if w.items.Some? then Some(w.items.value.itemQuantity) else None,
      if w.payments.Some? then Some(w.payments.value.paymentInstallments) else None,
      if w.payments.Some? then Some(w.payments.value.paymentValue) else None,
      if w.reviews.Some? then Some(w.reviews.value.reviewScore) else None,
      if w.seller.Some? then Some(w.seller.value.sellerCity) else None,
      if w.translation.Some? then Some(w.translation.value.productCategoryNameEnglish) else None)
  }

  /** `orders_full`: orders with customers, then the item aggregate, the
      payment aggregate, sellers, the review aggregate and the translation,
      each attached by a left join. */
  function OrdersFull(t: RawTables): (r: seq<Wide>)
    ensures |r| >= |t.orders|
  {
    var w0 := LeftJoin(t.orders, t.customers, OrderCustomerKey, CustomerKey, WithCustomer);
    var w1 := LeftJoin(w0, ItemsAgg(t), WideOrderKey, ItemAggKey, WithItems);
    var w2 := LeftJoin(w1, PaymentsAgg(t), WideOrderKey, PaymentAggKey, WithPayments);
    var w3 := LeftJoin(w2, t.sellers, WideSellerKey, SellerKey, WithSeller);
    var w4 := LeftJoin(w3, ReviewsAgg(t), WideOrderKey, ReviewAggKey, WithReviews);
    LeftJoin(w4, t.productTranslation, WideCategoryKey, TranslationKey, WithTranslation)
  }

  /** `process_data`: the final orders table. Every order survives the left
      joins, so there are never fewer rows than orders. */
  function ProcessData(t: RawTables): (r: seq<OrderFact>)
    ensures |r| >= |t.orders|
  {
    MapRows(OrdersFull(t), Project)
  }

  function OrderIdOf(o: Order): string { o.orderId }
  function WideOrderId(w: Wide): string { w.order.orderId }
  function FactOrderId(f: OrderFact): string { f.orderId }

  /** Whatever the right tables hold, duplicates included, every order id
      survives the six left joins, and no other order id appears. */
  lemma OrdersFullKeepsOrders(t: RawTables, id: string)
    ensures HasKey(OrdersFull(t), WideOrderId, id) <==> HasKey(t.orders, OrderIdOf, id)
  {
    var w0 := LeftJoin(t.orders, t.customers, OrderCustomerKey, CustomerKey, WithCustomer);
    var w1 := LeftJoin(w0, ItemsAgg(t), WideOrderKey, ItemAggKey, WithItems);
    var w2 := LeftJoin(w1, PaymentsAgg(t), WideOrderKey, PaymentAggKey, WithPayments);
    var w3 := LeftJoin(w2, t.sellers, WideSellerKey, SellerKey, WithSeller);
    var w4 := LeftJoin(w3, ReviewsAgg(t), WideOrderKey, ReviewAggKey, WithReviews);
    LeftJoinKeepsKeys(t.orders, t.customers, OrderCustomerKey, CustomerKey, WithCustomer, OrderIdOf, WideOrderId, id);
    LeftJoinKeepsKeys(w0, ItemsAgg(t), WideOrderKey, ItemAggKey, WithItems, WideOrderId, WideOrderId, id);
    LeftJoinKeepsKeys(w1, PaymentsAgg(t), WideOrderKey, PaymentAggKey, WithPayments, WideOrderId, WideOrderId, id);
    LeftJoinKeepsKeys(w2, t.sellers, WideSellerKey, SellerKey, WithSeller, WideOrderId, WideOrderId, id);
    LeftJoinKeepsKeys(w3, ReviewsAgg(t), WideOrderKey, ReviewAggKey, WithReviews, WideOrderId, WideOrderId, id);
    LeftJoinKeepsKeys(w4, t.productTranslation, WideCategoryKey, TranslationKey, WithTranslation, WideOrderId, WideOrderId, id);
  }

  /** `process_data` has a row for every order id of `orders` and for no other
      order id, whatever duplicates the right tables hold. */
  lemma ProcessDataKeepsOrders(t: RawTables, id: string)
    ensures HasKey(ProcessData(t), FactOrderId, id) <==> HasKey(t.orders, OrderIdOf, id)
  {
    OrdersFullKeepsOrders(t, id);
    MapRowsKeepsKeys(OrdersFull(t), Project, WideOrderId, FactOrderId, id);
  }

  /** What the joins attach to one order when every right table has unique
      keys: the lookup of the order in each table, stage by stage. */
  function AfterCustomers(t: RawTables, o: Order): Wide
  {
    WithCustomer(o, Lookup(t.customers, CustomerKey, OrderCustomerKey(o)))
  }

  function AfterItems(t: RawTables, o: Order): Wide
  {
    var w := AfterCustomers(t, o);
    WithItems(w, Lookup(ItemsAgg(t), ItemAggKey, WideOrderKey(w)))
  }

  function AfterPayments(t: RawTables, o: Order): Wide
  {
    var w := AfterItems(t, o);
    WithPayments(w, Lookup(PaymentsAgg(t), PaymentAggKey, WideOrderKey(w)))
  }

  function AfterSellers(t: RawTables, o: Order): Wide
  {
    var w := AfterPayments(t, o);
    WithSeller(w, Lookup(t.sellers, SellerKey, WideSellerKey(w)))
  }

  function AfterReviews(t: RawTables, o: Order): Wide
  {
    var w := AfterSellers(t, o);
    WithReviews(w, Lookup(ReviewsAgg(t), ReviewAggKey, WideOrderKey(w)))
  }

  function AfterTranslation(t: RawTables, o: Order): Wide
  {
    var w := AfterReviews(t, o);
    WithTranslation(w, Lookup(t.productTranslation, TranslationKey, WideCategoryKey(w)))
  }

  /** The output row of order `o` when no join duplicates it. */
  function FactOf(t: RawTables, o: Order): OrderFact
  {
    Project(AfterTranslation(t, o))
  }

  /** Right-side tables whose join keys are unique: then no left join duplicates an order. */
  predicate UniqueRightKeys(t: RawTables)
  {
    && UniqueKeys(t.customers, CustomerKey)
    && UniqueKeys(t.sellers, SellerKey)
    && UniqueKeys(t.productTranslation, TranslationKey)
  }

  /** Row count: with unique customer, seller and translation keys, the result
      has exactly one row per order, in order, and that row is `FactOf` it. */
  lemma ProcessDataRows(t: RawTables)
    requires UniqueRightKeys(t)
    ensures |ProcessData(t)| == |t.orders|
    ensures forall i :: 0 <= i < |t.orders| ==> ProcessData(t)[i] == FactOf(t, t.orders[i])
  {
    var w := OrdersFull(t);
    OrdersFullRows(t);
    forall i | 0 <= i < |t.orders| ensures ProcessData(t)[i] == FactOf(t, t.orders[i]) {
      assert ProcessData(t)[i] == Project(w[i]);
    }
  }

  /** The joined table before projection: one row per order, the order with
      its lookups attached. */
  lemma OrdersFullRows(t: RawTables)
    requires UniqueRightKeys(t)
    ensures |OrdersFull(t)| == |t.orders|
    ensures forall i :: 0 <= i < |t.orders| ==> OrdersFull(t)[i] == AfterTranslation(t, t.orders[i])
  {
    var w0 := JoinCustomersStep(t);
    var w1 := JoinItemsStep(t, w0);
    var w2 := JoinPaymentsStep(t, w1);
    var w3 := JoinSellersStep(t, w2);
    var w4 := JoinReviewsStep(t, w3);
    var w5 := JoinTranslationStep(t, w4);
    assert OrdersFull(t) == w5;
  }

  lemma JoinCustomersStep(t: RawTables) returns (w: seq<Wide>)
    requires UniqueKeys(t.customers, CustomerKey)
    ensures w == LeftJoin(t.orders, t.customers, OrderCustomerKey, CustomerKey, WithCustomer)
    ensures |w| == |t.orders| && forall i :: 0 <= i < |w| ==> w[i] == AfterCustomers(t, t.orders[i])
  {
    w := LeftJoin(t.orders, t.customers, OrderCustomerKey, CustomerKey, WithCustomer);
    LeftJoinUnique(t.orders, t.customers, OrderCustomerKey, CustomerKey, WithCustomer);
  }

  lemma JoinItemsStep(t: RawTables, w0: seq<Wide>) returns (w: seq<Wide>)
    requires |w0| == |t.orders| && forall i :: 0 <= i < |w0| ==> w0[i] == AfterCustomers(t, t.orders[i])
    ensures w == LeftJoin(w0, ItemsAgg(t), WideOrderKey, ItemAggKey, WithItems)
    ensures |w| == |t.orders| && forall i :: 0 <= i < |w| ==> w[i] == AfterItems(t, t.orders[i])
  {
    ItemsAggLookup(ItemsWithProducts(t), "");
    w := LeftJoin(w0, ItemsAgg(t), WideOrderKey, ItemAggKey, WithItems);
    LeftJoinUnique(w0, ItemsAgg(t), WideOrderKey, ItemAggKey, WithItems);
  }

  lemma JoinPaymentsStep(t: RawTables, w1: seq<Wide>) returns (w: seq<Wide>)
    requires |w1| == |t.orders| && forall i :: 0 <= i < |w1| ==> w1[i] == AfterItems(t, t.orders[i])
    ensures w == LeftJoin(w1, PaymentsAgg(t), WideOrderKey, PaymentAggKey, WithPayments)
    ensures |w| == |t.orders| && forall i :: 0 <= i < |w| ==> w[i] == AfterPayments(t, t.orders[i])
  {
    PaymentsAggLookup(t, "");
    w := LeftJoin(w1, PaymentsAgg(t), WideOrderKey, PaymentAggKey, WithPayments);
    LeftJoinUnique(w1, PaymentsAgg(t), WideOrderKey, PaymentAggKey, WithPayments);
  }

  lemma JoinSellersStep(t: RawTables, w2: seq<Wide>) returns (w: seq<Wide>)
    requires UniqueKeys(t.sellers, SellerKey)
    requires |w2| == |t.orders| && forall i :: 0 <= i < |w2| ==> w2[i] == AfterPayments(t, t.orders[i])
    ensures w == LeftJoin(w2, t.sellers, WideSellerKey, SellerKey, WithSeller)
    ensures |w| == |t.orders| && forall i :: 0 <= i < |w| ==> w[i] == AfterSellers(t, t.orders[i])
  {
    w := LeftJoin(w2, t.sellers, WideSellerKey, SellerKey, WithSeller);
    LeftJoinUnique(w2, t.sellers, WideSellerKey, SellerKey, WithSeller);
  }

  lemma JoinReviewsStep(t: RawTables, w3: seq<Wide>) returns (w: seq<Wide>)
    requires |w3| == |t.orders| && forall i :: 0 <= i < |w3| ==> w3[i] == AfterSellers(t, t.orders[i])
    ensures w == LeftJoin(w3, ReviewsAgg(t), WideOrderKey, ReviewAggKey, WithReviews)
    ensures |w| == |t.orders| && forall i :: 0 <= i < |w| ==> w[i] == AfterReviews(t, t.orders[i])
  {
    ReviewsAggLookup(t, "");
    w := LeftJoin(w3, ReviewsAgg(t), WideOrderKey, ReviewAggKey, WithReviews);
    LeftJoinUnique(w3, ReviewsAgg(t), WideOrderKey, ReviewAggKey, WithReviews);
  }

  lemma JoinTranslationStep(t: RawTables, w4: seq<Wide>) returns (w: seq<Wide>)
    requires UniqueKeys(t.productTranslation, TranslationKey)
    requires |w4| == |t.orders| && forall i :: 0 <= i < |w4| ==> w4[i] == AfterReviews(t, t.orders[i])
    ensures w == LeftJoin(w4, t.productTranslation, WideCategoryKey, TranslationKey, WithTranslation)
    ensures |w| == |t.orders| && forall i :: 0 <= i < |w| ==> w[i] == AfterTranslation(t, t.orders[i])
  {
    w := LeftJoin(w4, t.productTranslation, WideCategoryKey, TranslationKey, WithTranslation);
    LeftJoinUnique(w4, t.productTranslation, WideCategoryKey, TranslationKey, WithTranslation);
  }

  // ---------------------------------------------------------------------
  // Properties of one output row
  // ---------------------------------------------------------------------

  /** `g` is `raw` with each item's product looked up. */
  predicate JoinedAs(g: seq<ItemWithProduct>, raw: seq<OrderItem>, products: seq<Product>)
  {
    |g| == |raw| &&
    forall j :: 0 <= j < |g| ==> g[j] == ItemWithProduct(raw[j], Lookup(products, ProductKey, Some(raw[j].productId)))
  }

  /** With unique product ids, the item rows joined with products are the raw
      item rows, one for one, each with its product looked up. */
  lemma {:induction false} JoinedItems(items: seq<OrderItem>, products: seq<Product>)
    requires UniqueKeys(products, ProductKey)
    ensures JoinedAs(LeftJoin(items, products, ItemProductKey, ProductKey, WithProduct), items, products)
  {
    LeftJoinUnique(items, products, ItemProductKey, ProductKey, WithProduct);
  }

  /** The group of an order among joined rows is the joined group of its raw rows. */
  lemma {:induction false} JoinedAsGroup(g: seq<ItemWithProduct>, raw: seq<OrderItem>, products: seq<Product>, id: string)
    requires JoinedAs(g, raw, products)
    ensures JoinedAs(Filter(g, JoinedOrder, id), Filter(raw, ItemOrder, id), products)
  {
    if raw != [] {
      var x := ItemWithProduct(raw[0], Lookup(products, ProductKey, Some(raw[0].productId)));
      assert g[0] == x;
      assert JoinedAs(g[1..], raw[1..], products) by {
        forall j | 0 <= j < |g[1..]|
          ensures g[1..][j] == ItemWithProduct(raw[1..][j], Lookup(products, ProductKey, Some(raw[1..][j].productId)))
        {
          assert g[1..][j] == g[j + 1] && raw[1..][j] == raw[j + 1];
        }
      }
      JoinedAsGroup(g[1..], raw[1..], products, id);
      var fg := Filter(g[1..], JoinedOrder, id);
      var fr := Filter(raw[1..], ItemOrder, id);
      if raw[0].orderId == id {
        assert Filter(g, JoinedOrder, id) == [x] + fg;
        assert Filter(raw, ItemOrder, id) == [raw[0]] + fr;
        JoinedAsCons(x, fg, raw[0], fr, products);
      } else {
        assert Filter(g, JoinedOrder, id) == fg;
        assert Filter(raw, ItemOrder, id) == fr;
      }
    }
  }

  lemma JoinedAsCons(x: ItemWithProduct, g: seq<ItemWithProduct>, y: OrderItem, raw: seq<OrderItem>, products: seq<Product>)
    requires JoinedAs(g, raw, products)
    requires x == ItemWithProduct(y, Lookup(products, ProductKey, Some(y.productId)))
    ensures JoinedAs([x] + g, [y] + raw, products)
  {
    forall j | 0 <= j < |g| + 1
      ensures ([x] + g)[j] == ItemWithProduct(([y] + raw)[j], Lookup(products, ProductKey, Some(([y] + raw)[j].productId)))
    {
      if j > 0 {
        assert ([x] + g)[j] == g[j - 1] && ([y] + raw)[j] == raw[j - 1];
      }
    }
  }

  /** The `order_items_agg` row an order would get from its raw item rows. */
  function ItemAggFromRaw(id: string, raw: seq<OrderItem>, products: seq<Product>): ItemAgg
    requires raw != []
  {
    ItemAgg(id, SumOf(raw, ItemPrice), SumOf(raw, ItemFreight), raw[0].productId,
            CategoryOf(Lookup(products, ProductKey, Some(raw[0].productId))), raw[0].sellerId, |raw|)
  }

  lemma GroupItemsOfOrder(rows: seq<ItemWithProduct>, items: seq<OrderItem>, products: seq<Product>, id: string)
    requires JoinedAs(rows, items, products)
    ensures var raw := Filter(items, ItemOrder, id);
            Lookup(GroupItems(rows), ItemAggKey, Some(id))
            == if raw == [] then None else Some(ItemAggFromRaw(id, raw, products))
  {
    var g := Filter(rows, JoinedOrder, id);
    var raw := Filter(items, ItemOrder, id);
    ItemsAggLookup(rows, id);
    JoinedAsGroup(rows, items, products, id);
    if raw != [] {
      AggregateJoined(g, raw, products, id);
    } else {
      assert |g| == |raw|;
    }
  }

  /** Aggregating the joined group equals aggregating the raw group. */
  lemma AggregateJoined(g: seq<ItemWithProduct>, raw: seq<OrderItem>, products: seq<Product>, id: string)
    requires JoinedAs(g, raw, products) && raw != []
    ensures g != [] && AggregateItems(id, g) == ItemAggFromRaw(id, raw, products)
  {
    SumOfPointwise(g, JoinedPrice, raw, ItemPrice);
    SumOfPointwise(g, JoinedFreight, raw, ItemFreight);
  }

  /** With unique product ids, looking an order up in `order_items_agg` gives
      the sums, count and first row of its raw item rows; null when it has none. */
  lemma ItemsAggOfOrder(t: RawTables, id: string)
    requires UniqueKeys(t.products, ProductKey)
    ensures var raw := Filter(t.orderItems, ItemOrder, id);
            Lookup(ItemsAgg(t), ItemAggKey, Some(id))
            == if raw == [] then None else Some(ItemAggFromRaw(id, raw, t.products))
  {
    JoinedItems(t.orderItems, t.products);
    GroupItemsOfOrder(ItemsWithProducts(t), t.orderItems, t.products, id);
  }

  /** An order without item rows has no row in `order_items_agg`, whatever the products. */
  lemma ItemsAggAbsent(t: RawTables, id: string)
    requires Filter(t.orderItems, ItemOrder, id) == []
    ensures Lookup(ItemsAgg(t), ItemAggKey, Some(id)) == None
  {
    ItemsAggLookup(ItemsWithProducts(t), id);
    LeftJoinKeepsKeys(t.orderItems, t.products, ItemProductKey, ProductKey, WithProduct, ItemOrder, JoinedOrder, id);
  }

  /** The order's own columns pass through unchanged. */
  lemma ProcessDataOrderColumns(t: RawTables, i: nat)
    requires UniqueRightKeys(t) && i < |t.orders|
    ensures i < |ProcessData(t)|
    ensures var f := ProcessData(t)[i]; var o := t.orders[i];
            && f.orderId == o.orderId && f.orderStatus == o.orderStatus
            && f.purchaseTimestamp == o.purchaseTimestamp && f.approvedAt == o.approvedAt
            && f.deliveredCarrierDate == o.deliveredCarrierDate
            && f.deliveredCustomerDate == o.deliveredCustomerDate
            && f.estimatedDeliveryDate == o.estimatedDeliveryDate
  {
    ProcessDataRows(t);
  }

  /** Customer columns come from the customer row with the order's
      `customer_id`; both are null when there is none, and the order is kept. */
  lemma ProcessDataCustomer(t: RawTables, i: nat)
    requires UniqueRightKeys(t) && i < |t.orders|
    ensures i < |ProcessData(t)|
    ensures var f := ProcessData(t)[i]; var o := t.orders[i];
            && (!HasKey(t.customers, CustomerKey, o.customerId) ==> f.customerUniqueId == None && f.customerCity == None)
            && (forall j :: 0 <= j < |t.customers| && t.customers[j].customerId == o.customerId ==>
                  f.customerUniqueId == Some(t.customers[j].customerUniqueId)
                  && f.customerCity == Some(t.customers[j].customerCity))
  {
    ProcessDataRows(t);
    forall j | 0 <= j < |t.customers| && t.customers[j].customerId == t.orders[i].customerId {
      LookupAt(t.customers, CustomerKey, j);
    }
  }

  /** Item sums: `price` and `freight_value` are the sums over the order's item
      rows and `item_quantity` their number. */
  lemma ProcessDataItemSums(t: RawTables, i: nat)
    requires UniqueRightKeys(t) && UniqueKeys(t.products, ProductKey) && i < |t.orders|
    requires Filter(t.orderItems, ItemOrder, t.orders[i].orderId) != []
    ensures i < |ProcessData(t)|
    ensures var f := ProcessData(t)[i]; var items := Filter(t.orderItems, ItemOrder, t.orders[i].orderId);
            && f.price == Some(SumOf(items, ItemPrice))
            && f.freightValue == Some(SumOf(items, ItemFreight))
            && f.itemQuantity == Some(|items|)
  {
    ProcessDataRows(t);
    ItemsAggOfOrder(t, t.orders[i].orderId);
  }

  /** First item wins: product, category and seller come from the order's first
      item row in source order, and the seller city and English category are
      looked up from them. */
  lemma ProcessDataFirstItem(t: RawTables, i: nat)
    requires UniqueRightKeys(t) && UniqueKeys(t.products, ProductKey) && i < |t.orders|
    requires Filter(t.orderItems, ItemOrder, t.orders[i].orderId) != []
    ensures i < |ProcessData(t)|
    ensures var f := ProcessData(t)[i]; var first := Filter(t.orderItems, ItemOrder, t.orders[i].orderId)[0];
            && f.productId == Some(first.productId)
            && f.sellerId == Some(first.sellerId)
            && (!HasKey(t.products, ProductKey, first.productId) ==> f.productCategoryName == None)
            && (forall j :: 0 <= j < |t.products| && t.products[j].productId == first.productId ==>
                  f.productCategoryName == t.products[j].productCategoryName)
            && (!HasKey(t.sellers, SellerKey, first.sellerId) ==> f.sellerCity == None)
            && (forall j :: 0 <= j < |t.sellers| && t.sellers[j].sellerId == first.sellerId ==>
                  f.sellerCity == Some(t.sellers[j].sellerCity))
            && (f.productCategoryName == None ==> f.productCategoryNameEnglish == None)
            && (f.productCategoryName.Some? && !HasKey(t.productTranslation, TranslationKey, f.productCategoryName.value) ==>
                  f.productCategoryNameEnglish == None)
            && (forall j :: (0 <= j < |t.productTranslation| &&
                             f.productCategoryName == Some(t.productTranslation[j].productCategoryName)) ==>
                  f.productCategoryNameEnglish == Some(t.productTranslation[j].productCategoryNameEnglish))
  {
    ProcessDataRows(t);
    ItemsAggOfOrder(t, t.orders[i].orderId);
    var first := Filter(t.orderItems, ItemOrder, t.orders[i].orderId)[0];
    var f := ProcessData(t)[i];
    forall j | 0 <= j < |t.products| && t.products[j].productId == first.productId {
      LookupAt(t.products, ProductKey, j);
    }
    forall j | 0 <= j < |t.sellers| && t.sellers[j].sellerId == first.sellerId {
      LookupAt(t.sellers, SellerKey, j);
    }
    forall j | 0 <= j < |t.productTranslation| && f.productCategoryName == Some(t.productTranslation[j].productCategoryName) {
      LookupAt(t.productTranslation, TranslationKey, j);
    }
  }

  /** No items means absent, not zero: every item-derived column is null, and
      so are the seller city and English category, whose joins find no key. */
  lemma ProcessDataNoItems(t: RawTables, i: nat)
    requires UniqueRightKeys(t) && i < |t.orders|
    requires Filter(t.orderItems, ItemOrder, t.orders[i].orderId) == []
    ensures i < |ProcessData(t)|
    ensures var f := ProcessData(t)[i];
            && f.price == None && f.freightValue == None && f.itemQuantity == None
            && f.productId == None && f.productCategoryName == None && f.sellerId == None
            && f.sellerCity == None && f.productCategoryNameEnglish == None
  {
    ProcessDataRows(t);
    ItemsAggAbsent(t, t.orders[i].orderId);
  }

  /** Payments: the summed value and the first row's installments of the
      order's payment rows; both null when it has none. */
  lemma ProcessDataPayments(t: RawTables, i: nat)
    requires UniqueRightKeys(t) && i < |t.orders|
    ensures i < |ProcessData(t)|
    ensures var f := ProcessData(t)[i]; var ps := Filter(t.payments, PaymentOrder, t.orders[i].orderId);
            && (ps == [] ==> f.paymentValue == None && f.paymentInstallments == None)
            && (ps != [] ==> f.paymentValue == Some(SumOf(ps, PaymentValue))
                             && f.paymentInstallments == Some(ps[0].paymentInstallments))
  {
    ProcessDataRows(t);
    PaymentsAggLookup(t, t.orders[i].orderId);
  }

  /** Review score: the mean of the order's review scores truncated toward
      zero; null when it has no review. */
  lemma ProcessDataReviews(t: RawTables, i: nat)
    requires UniqueRightKeys(t) && i < |t.orders|
    ensures i < |ProcessData(t)|
    ensures var f := ProcessData(t)[i]; var rs := Filter(t.reviews, ReviewOrder, t.orders[i].orderId);
            && (rs == [] ==> f.reviewScore == None)
            && (rs != [] ==> f.reviewScore == Some(TruncateToInt(SumOf(rs, ReviewScore) / |rs| as real)))
  {
    ProcessDataRows(t);
    ReviewsAggLookup(t, t.orders[i].orderId);
  }

  /** Scores on the 1 to 5 scale give a truncated mean on the same scale. */
  lemma ReviewScoreInScale(t: RawTables, i: nat)
    requires UniqueRightKeys(t) && i < |t.orders|
    requires ScoresInScale(t.reviews)
    ensures i < |ProcessData(t)|
    ensures ProcessData(t)[i].reviewScore.Some? ==> 1 <= ProcessData(t)[i].reviewScore.value <= 5
  {
    var cell := ProcessData(t)[i].reviewScore;
    var rs := Filter(t.reviews, ReviewOrder, t.orders[i].orderId);
    assert (rs == [] ==> cell == None)
           && (rs != [] ==> cell == Some(TruncateToInt(SumOf(rs, ReviewScore) / |rs| as real))) by {
      ProcessDataReviews(t, i);
    }
    ScoreCellInScale(cell, t.reviews, t.orders[i].orderId);
  }

  /** Every review score is on the 1 to 5 scale of the review form. */
  predicate ScoresInScale(reviews: seq<Review>)
  {
    forall j :: 0 <= j < |reviews| ==> 1 <= reviews[j].reviewScore <= 5
  }

  lemma ScoreCellInScale(cell: Option<int>, reviews: seq<Review>, id: string)
    requires var rs := Filter(reviews, ReviewOrder, id);
             && (rs == [] ==> cell == None)
             && (rs != [] ==> cell == Some(TruncateToInt(SumOf(rs, ReviewScore) / |rs| as real)))
    requires ScoresInScale(reviews)
    ensures cell.Some? ==> 1 <= cell.value <= 5
  {
    var rs := Filter(reviews, ReviewOrder, id);
    if rs != [] {
      GroupScoresInScale(reviews, id);
      MeanScoreInScale(rs);
    }
  }

  lemma GroupScoresInScale(reviews: seq<Review>, id: string)
    requires ScoresInScale(reviews)
    ensures ScoresInScale(Filter(reviews, ReviewOrder, id))
  {
    var rs := Filter(reviews, ReviewOrder, id);
    forall j | 0 <= j < |rs| ensures 1 <= rs[j].reviewScore <= 5 {
      assert rs[j] in reviews;
    }
  }

  lemma MeanScoreInScale(rs: seq<Review>)
    requires rs != []
    requires ScoresInScale(rs)
    ensures 1 <= TruncateToInt(SumOf(rs, ReviewScore) / |rs| as real) <= 5
  {
    SumOfBounds(rs, ReviewScore, 1.0, 5.0);
    MeanBetween(SumOf(rs, ReviewScore), |rs| as real, 1.0, 5.0);
  }

  lemma MeanBetween(s: real, n: real, lo: real, hi: real)
    requires n > 0.0 && lo * n <= s <= hi * n
    ensures lo <= s / n <= hi
  {
  }
}
