/** The fixtures of the repository's tests, replayed against the model:
    the two-order raw tables of tests/test_database.py and the two-row fact
    table of tests/test_api.py. Timestamps are written as plain integers. */
module Scenarios {
  import opened Table
  import opened Database
  import opened Processing

  // ---------------------------------------------------------------------
  // tests/test_database.py: two orders, order_1 with two items
  // ---------------------------------------------------------------------

  function MockTables(): RawTables
  {
    RawTables(
      [Customer("1", "unique_1", "city_1"), Customer("2", "unique_2", "city_2")],
      [Order("order_1", "1", "delivered", 1, Some(2), Some(3), Some(5), 7),
       Order("order_2", "2", "shipped", 11, Some(12), Some(13), Some(15), 17)],
      [OrderItem("order_1", 1, "product_1", "seller_1", 50.0, 5.0),
       OrderItem("order_1", 2, "product_2", "seller_2", 30.0, 5.0),
       OrderItem("order_2", 1, "product_3", "seller_2", 20.0, 5.0)],
      [Payment("order_1", 1, 85.0), Payment("order_2", 2, 25.0)],
      [Review("order_1", 5), Review("order_2", 4)],
      [Product("product_1", Some("category_1")), Product("product_2", Some("category_2")),
       Product("product_3", Some("category_3"))],
      [Seller("seller_1", "seller_city_1"), Seller("seller_2", "seller_city_2")],
      [Translation("category_1", "English Category 1"), Translation("category_2", "English Category 2")])
  }

  /** Two orders give two rows; order_1's items 50.0 and 30.0 give price 80.0
      and item quantity 2, with product, seller and English category taken
      from its first item. */
  lemma MockOrderOne(t: RawTables)
    requires t == MockTables()
    ensures |ProcessData(t)| == 2
    ensures var f := ProcessData(t)[0];
            && f.orderId == "order_1"
            && f.price == Some(80.0) && f.freightValue == Some(10.0) && f.itemQuantity == Some(2)
            && f.productId == Some("product_1") && f.sellerId == Some("seller_1")
            && f.sellerCity == Some("seller_city_1")
            && f.productCategoryNameEnglish == Some("English Category 1")
  {
    MockKeys(t);
    ProcessDataRows(t);
    ProcessDataOrderColumns(t, 0);
    MockOrderOneItems(t);
    MockOrderOneLookups(t);
  }

  lemma MockKeys(t: RawTables)
    requires t == MockTables()
    ensures UniqueRightKeys(t) && UniqueKeys(t.products, ProductKey)
    ensures Filter(t.orderItems, ItemOrder, t.orders[0].orderId) == t.orderItems[..2]
  {
    MockUniqueKeys(t);
    MockItemsOfOrderOne(t);
  }

  lemma MockUniqueKeys(t: RawTables)
    requires t == MockTables()
    ensures UniqueRightKeys(t) && UniqueKeys(t.products, ProductKey)
  {
  }

  lemma MockItemsOfOrderOne(t: RawTables)
    requires t == MockTables()
    ensures Filter(t.orderItems, ItemOrder, t.orders[0].orderId) == t.orderItems[..2]
  {
    var x, y, z := t.orderItems[0], t.orderItems[1], t.orderItems[2];
    assert t.orderItems == [x, y, z];
    FilterTriple(x, y, z, ItemOrder, "order_1");
    assert t.orderItems[..2] == [x, y];
  }

  lemma MockOrderOneItems(t: RawTables)
    requires t == MockTables()
    ensures |ProcessData(t)| == 2
    ensures var f := ProcessData(t)[0];
            f.price == Some(80.0) && f.freightValue == Some(10.0) && f.itemQuantity == Some(2)
  {
    MockKeys(t);
    TwoItemOrder(t, 0, t.orderItems[0], t.orderItems[1]);
  }

  /** An order with exactly two item rows sums their price and freight. */
  lemma TwoItemOrder(t: RawTables, i: nat, x: OrderItem, y: OrderItem)
    requires UniqueRightKeys(t) && UniqueKeys(t.products, ProductKey) && i < |t.orders|
    requires Filter(t.orderItems, ItemOrder, t.orders[i].orderId) == [x, y]
    ensures |ProcessData(t)| == |t.orders|
    ensures var f := ProcessData(t)[i];
            f.price == Some(x.price + y.price) && f.freightValue == Some(x.freightValue + y.freightValue)
            && f.itemQuantity == Some(2)
  {
    var items := Filter(t.orderItems, ItemOrder, t.orders[i].orderId);
    assert SumOf(items, ItemPrice) == x.price + y.price by {
      SumOfPair(x, y, ItemPrice);
    }
    assert SumOf(items, ItemFreight) == x.freightValue + y.freightValue by {
      SumOfPair(x, y, ItemFreight);
    }
    ProcessDataItemSums(t, i);
    assert |ProcessData(t)| == |t.orders| by {
      ProcessDataRows(t);
    }
  }

  lemma MockOrderOneLookups(t: RawTables)
    requires t == MockTables()
    ensures |ProcessData(t)| == 2
    ensures var f := ProcessData(t)[0];
            && f.productId == Some("product_1") && f.sellerId == Some("seller_1")
            && f.sellerCity == Some("seller_city_1")
            && f.productCategoryNameEnglish == Some("English Category 1")
  {
    MockKeys(t);
    FirstItemLookups(t, 0, t.products[0], t.sellers[0], t.productTranslation[0]);
  }

  /** When the order's first item names product `p` and seller `s`, and `p`'s
      category translates by `tr`, the fact row carries all four. */
  lemma FirstItemLookups(t: RawTables, i: nat, p: Product, s: Seller, tr: Translation)
    requires UniqueRightKeys(t) && UniqueKeys(t.products, ProductKey) && i < |t.orders|
    requires |t.products| > 0 && |t.sellers| > 0 && |t.productTranslation| > 0
    requires p == t.products[0] && s == t.sellers[0] && tr == t.productTranslation[0]
    requires Filter(t.orderItems, ItemOrder, t.orders[i].orderId) != []
    requires Filter(t.orderItems, ItemOrder, t.orders[i].orderId)[0].productId == p.productId
    requires Filter(t.orderItems, ItemOrder, t.orders[i].orderId)[0].sellerId == s.sellerId
    requires p.productCategoryName == Some(tr.productCategoryName)
    ensures |ProcessData(t)| == |t.orders|
    ensures var f := ProcessData(t)[i];
            && f.productId == Some(p.productId) && f.sellerId == Some(s.sellerId)
            && f.sellerCity == Some(s.sellerCity)
            && f.productCategoryNameEnglish == Some(tr.productCategoryNameEnglish)
  {
    ProcessDataFirstItem(t, i);
    assert |ProcessData(t)| == |t.orders| by {
      ProcessDataRows(t);
    }
  }

  lemma SumOfPair<T>(a: T, b: T, f: T -> Option<real>)
    ensures SumOf([a, b], f) == OrZero(f(a)) + OrZero(f(b))
  {
    assert [a, b][1..] == [b];
    SingleSum(b, f);
  }

  lemma MeanOfPair<T>(a: T, b: T, f: T -> Option<real>)
    requires f(a).Some? && f(b).Some?
    ensures MeanOf([a, b], f) == Some((f(a).value + f(b).value) / 2.0)
  {
    var rows := [a, b];
    assert rows[0] == a && rows[1] == b;
    MeanAllPresent(rows, f);
    SumOfPair(a, b, f);
    var total := SumOf(rows, f);
    assert total == f(a).value + f(b).value;
    DivideByTwo(total, |rows| as real);
  }

  lemma DivideByTwo(x: real, n: real)
    requires n == 2.0
    ensures x / n == x / 2.0
  {
  }

  lemma FilterPair<T, K>(a: T, b: T, key: T -> K, k: K)
    ensures Filter([a, b], key, k) == (if key(a) == k then [a] else []) + (if key(b) == k then [b] else [])
  {
    assert [a, b][1..] == [b];
    assert [b][1..] == [];
  }

  lemma FilterTriple<T, K>(a: T, b: T, c: T, key: T -> K, k: K)
    ensures Filter([a, b, c], key, k)
         == (if key(a) == k then [a] else []) + (if key(b) == k then [b] else []) + (if key(c) == k then [c] else [])
  {
    assert [a, b, c][1..] == [b, c];
    FilterPair(b, c, key, k);
  }

  // ---------------------------------------------------------------------
  // tests/test_api.py: two fact rows
  // ---------------------------------------------------------------------

  /** The columns of the two fixture rows that the snapshot reads. */
  predicate ApiRows(a: OrderFact, b: OrderFact)
  {
    && a.customerUniqueId == Some("cust_1") && b.customerUniqueId == Some("cust_2")
    && a.price == Some(100.0) && b.price == Some(200.0)
    && a.freightValue == Some(10.0) && b.freightValue == Some(20.0)
    && a.sellerId == Some("seller_1") && b.sellerId == Some("seller_2")
    && a.productId == Some("prod_1") && b.productId == Some("prod_2")
  }

  /** Mean price 150.0, mean freight 15.0, each product sold once, and
      seller_2 the top seller with 200.0. */
  lemma ApiSalesAnalysis(a: OrderFact, b: OrderFact)
    requires ApiRows(a, b)
    ensures GetSalesAnalysis([a, b]).Ok?
    ensures var s := GetSalesAnalysis([a, b]).value;
            && s.avgOrderValue == Some(150.0)
            && s.avgShippingFee == Some(15.0)
            && s.mostSoldProductCount == 1
            && s.topSellerId == Some("seller_2") && s.topSellerSales == 200.0
  {
    ApiMeans(a, b);
    ApiMostSold(a, b);
    ApiTopSeller(a, b);
  }

  lemma ApiMeans(a: OrderFact, b: OrderFact)
    requires ApiRows(a, b)
    ensures var s := GetSalesAnalysis([a, b]).value;
            s.avgOrderValue == Some(150.0) && s.avgShippingFee == Some(15.0)
  {
    MeanOfPair(a, b, Price);
    MeanOfPair(a, b, Freight);
  }

  lemma ApiMostSold(a: OrderFact, b: OrderFact)
    requires ApiRows(a, b)
    ensures GetSalesAnalysis([a, b]).value.mostSoldProductCount == 1
  {
    var s := GetSalesAnalysis([a, b]).value;
    SnapshotMostSoldProduct([a, b]);
    FilterPair(a, b, ProductOf, s.mostSoldProductId);
  }

  lemma ApiTopSeller(a: OrderFact, b: OrderFact)
    requires ApiRows(a, b)
    ensures var s := GetSalesAnalysis([a, b]).value;
            s.topSellerId == Some("seller_2") && s.topSellerSales == 200.0
  {
    SnapshotTopSellerFacts([a, b], Some("seller_2"));
    var s := GetSalesAnalysis([a, b]).value;
    TopOfTwoSellers(a, b, s.topSellerId, s.topSellerSales);
  }

  /** The snapshot's top seller occurs in the table, its sales are its summed
      price, and seller `k` of the table sold no more. */
  lemma SnapshotTopSellerFacts(data: seq<OrderFact>, k: Option<string>)
    requires HasKey(data, SellerOf, k)
    ensures data != []
    ensures var s := GetSalesAnalysis(data).value;
            && HasKey(data, SellerOf, s.topSellerId)
            && s.topSellerSales == SumOf(Filter(data, SellerOf, s.topSellerId), Price)
            && SumOf(Filter(data, SellerOf, k), Price) <= s.topSellerSales
  {
    SnapshotTopSeller(data);
  }

  /** Of the two fixture sellers, only seller_2 with 200.0 can be a seller of
      the table whose sales are not below seller_2's. */
  lemma TopOfTwoSellers(a: OrderFact, b: OrderFact, top: Option<string>, amount: real)
    requires ApiRows(a, b)
    requires HasKey([a, b], SellerOf, top)
    requires amount == SumOf(Filter([a, b], SellerOf, top), Price)
    requires SumOf(Filter([a, b], SellerOf, Some("seller_2")), Price) <= amount
    ensures top == Some("seller_2") && amount == 200.0
  {
    var data := [a, b];
    assert SumOf(Filter(data, SellerOf, Some("seller_1")), Price) == 100.0 by {
      FilterPair(a, b, SellerOf, Some("seller_1"));
      assert Filter(data, SellerOf, Some("seller_1")) == [a];
      SingleSum(a, Price);
    }
    assert SumOf(Filter(data, SellerOf, Some("seller_2")), Price) == 200.0 by {
      FilterPair(a, b, SellerOf, Some("seller_2"));
      assert Filter(data, SellerOf, Some("seller_2")) == [b];
      SingleSum(b, Price);
    }
    assert top == Some("seller_1") || top == Some("seller_2") by {
      var j :| 0 <= j < 2 && SellerOf(data[j]) == top;
    }
  }

  lemma SingleSum<T>(a: T, f: T -> Option<real>)
    ensures SumOf([a], f) == OrZero(f(a))
  {
    assert [a][1..] == [];
  }

  /** Two customers give two rows, keyed cust_1 and cust_2. */
  lemma ApiCustomers(a: OrderFact, b: OrderFact)
    requires ApiRows(a, b)
    ensures var v := GetCustomerSpending([a, b]);
            && |v| == 2
            && HasKey(v, SpendingKey, Some("cust_1")) && HasKey(v, SpendingKey, Some("cust_2"))
  {
    var data := [a, b];
    var v := GetCustomerSpending(data);
    CustomerGroups(data);
    assert HasKey(v, SpendingKey, Some("cust_1")) && HasKey(v, SpendingKey, Some("cust_2")) by {
      assert data[0].customerUniqueId == Some("cust_1") && data[1].customerUniqueId == Some("cust_2");
    }
    TwoKeys(v, SpendingKey, Some("cust_1"), Some("cust_2"));
  }

  /** Two different keys present means at least two rows. */
  lemma TwoKeys<T, K>(rows: seq<T>, key: T -> K, k1: K, k2: K)
    requires k1 != k2 && HasKey(rows, key, k1) && HasKey(rows, key, k2)
    ensures |rows| >= 2
  {
    var p :| 0 <= p < |rows| && key(rows[p]) == k1;
    var q :| 0 <= q < |rows| && key(rows[q]) == k2;
    assert p != q;
  }
}
