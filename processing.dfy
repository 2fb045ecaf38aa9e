/** The analytics views of src/processing.py over the order-fact table that
    `process_data` builds: customer spending, sales per seller, product sales
    and the one-row sales snapshot. Each is a group-by with null-skipping
    aggregates; no value is rounded. */
module Processing {
  import opened Table
  import opened Database

  // ---------------------------------------------------------------------
  // Columns of the order-fact table read by the views
  // ---------------------------------------------------------------------

  function CustomerOf(f: OrderFact): Option<string> { f.customerUniqueId }
  function SellerOf(f: OrderFact): Option<string> { f.sellerId }
  function ProductOf(f: OrderFact): Option<string> { f.productId }
  function Price(f: OrderFact): Option<real> { f.price }
  function Freight(f: OrderFact): Option<real> { f.freightValue }
  function PaymentOf(f: OrderFact): Option<real> { f.paymentValue }
  function Purchase(f: OrderFact): int { f.purchaseTimestamp }

  function Quantity(f: OrderFact): Option<int>
  {
    match f.itemQuantity
    case Some(q) => Some(q)
    case None => None
  }

  // ---------------------------------------------------------------------
  // Customer spending
  // ---------------------------------------------------------------------

  /** One row of `get_customer_spending`. */
  datatype CustomerSpending = CustomerSpending(
    customerUniqueId: Option<string>,
    totalOrdersValue: real,
    orderCount: nat,
    totalShippingCost: real,
    totalPaymentValue: real,
    lastOrderDate: int,
    firstOrderDate: int,
    customerCity: Option<string>)

  function SpendingKey(c: CustomerSpending): Option<string> { c.customerUniqueId }
  function SpendingTotal(c: CustomerSpending): real { c.totalOrdersValue }
  /** The same cell as a nullable column, for `sum`. */
  function SpendingValue(c: CustomerSpending): Option<real> { Some(SpendingTotal(c)) }
  function SpendingShipping(c: CustomerSpending): Option<real> { Some(c.totalShippingCost) }
  function SpendingPayment(c: CustomerSpending): Option<real> { Some(c.totalPaymentValue) }

  /** The aggregates of one customer's rows. `count('order_id')` is the group
      size, since an order id is never null. */
  function CustomerRow(k: Option<string>, g: seq<OrderFact>): CustomerSpending
    requires g != []
  {
    CustomerSpending(k, SumOf(g, Price), |g|, SumOf(g, Freight), SumOf(g, PaymentOf),
                     MaxOf(g, Purchase), MinOf(g, Purchase), g[0].customerCity)
  }

  /** `get_customer_spending`: group by `customer_unique_id`. */
  function GetCustomerSpending(data: seq<OrderFact>): (r: seq<CustomerSpending>)
    ensures |r| <= |data|
    ensures r == [] <==> data == []
  {
    var ks := GroupKeys(data, CustomerOf);
    assert data != [] ==> CustomerOf(data[0]) in ks;
    seq(|ks|, i requires 0 <= i < |ks| => CustomerRow(ks[i], Filter(data, CustomerOf, ks[i])))
  }

  /** One row per customer: no key twice, every key from the input, every input key present. */
  lemma CustomerGroups(data: seq<OrderFact>)
    ensures var v := GetCustomerSpending(data);
            && UniqueKeys(v, SpendingKey)
            && (forall i :: 0 <= i < |v| ==> HasKey(data, CustomerOf, v[i].customerUniqueId))
            && (forall j :: 0 <= j < |data| ==> HasKey(v, SpendingKey, data[j].customerUniqueId))
  {
    GroupViewKeys(data, CustomerOf, GetCustomerSpending(data), SpendingKey);
  }

  /** A customer's row aggregates exactly that customer's rows: unrounded sums,
      the row count, the latest and earliest purchase among them, the first city. */
  lemma CustomerSpendingRow(data: seq<OrderFact>, i: nat)
    requires i < |GetCustomerSpending(data)|
    ensures var c := GetCustomerSpending(data)[i]; var g := Filter(data, CustomerOf, c.customerUniqueId);
            && g != []
            && c.totalOrdersValue == SumOf(g, Price)
            && c.orderCount == |g|
            && c.totalShippingCost == SumOf(g, Freight)
            && c.totalPaymentValue == SumOf(g, PaymentOf)
            && c.firstOrderDate <= c.lastOrderDate
            && (exists j :: 0 <= j < |g| && g[j].purchaseTimestamp == c.lastOrderDate)
            && (exists j :: 0 <= j < |g| && g[j].purchaseTimestamp == c.firstOrderDate)
            && (forall j :: 0 <= j < |g| ==> c.firstOrderDate <= g[j].purchaseTimestamp <= c.lastOrderDate)
            && c.customerCity == g[0].customerCity
  {
    var ks := GroupKeys(data, CustomerOf);
    var g := Filter(data, CustomerOf, ks[i]);
    assert g[0] in g;
  }

  /** The customer totals add up to the column totals of the whole table. */
  lemma CustomerTotals(data: seq<OrderFact>)
    ensures var v := GetCustomerSpending(data);
            && SumOf(v, SpendingValue) == SumOf(data, Price)
            && SumOf(v, SpendingShipping) == SumOf(data, Freight)
            && SumOf(v, SpendingPayment) == SumOf(data, PaymentOf)
  {
    var v := GetCustomerSpending(data);
    var ks := GroupKeys(data, CustomerOf);
    ViewSumIsSumGroups(v, SpendingValue, data, CustomerOf, Price, ks);
    GroupSumsAddUp(data, CustomerOf, Price, ks);
    ViewSumIsSumGroups(v, SpendingShipping, data, CustomerOf, Freight, ks);
    GroupSumsAddUp(data, CustomerOf, Freight, ks);
    ViewSumIsSumGroups(v, SpendingPayment, data, CustomerOf, PaymentOf, ks);
    GroupSumsAddUp(data, CustomerOf, PaymentOf, ks);
  }

  // ---------------------------------------------------------------------
  // Sales per seller
  // ---------------------------------------------------------------------

  /** One row of `get_sales_per_seller`. */
  datatype SellerSales = SellerSales(
    sellerId: Option<string>,
    totalOrdersValue: real,
    totalOrders: nat,
    totalProductsSold: int,
    sellerCity: Option<string>)

  function SellerSalesKey(s: SellerSales): Option<string> { s.sellerId }
  function SellerSalesTotal(s: SellerSales): real { s.totalOrdersValue }
  /** The same cell as a nullable column, for `sum`. */
  function SellerSalesValue(s: SellerSales): Option<real> { Some(SellerSalesTotal(s)) }

  function SellerRow(k: Option<string>, g: seq<OrderFact>): SellerSales
    requires g != []
  {
    SellerSales(k, SumOf(g, Price), |g|, SumIntOf(g, Quantity), g[0].sellerCity)
  }

  /** `get_sales_per_seller`: group by `seller_id`. */
  function GetSalesPerSeller(data: seq<OrderFact>): (r: seq<SellerSales>)
    ensures |r| <= |data|
    ensures r == [] <==> data == []
  {
    var ks := GroupKeys(data, SellerOf);
    assert data != [] ==> SellerOf(data[0]) in ks;
    seq(|ks|, i requires 0 <= i < |ks| => SellerRow(ks[i], Filter(data, SellerOf, ks[i])))
  }

  /** One row per seller: no key twice, every key from the input, every input key present. */
  lemma SellerGroups(data: seq<OrderFact>)
    ensures var v := GetSalesPerSeller(data);
            && UniqueKeys(v, SellerSalesKey)
            && (forall i :: 0 <= i < |v| ==> HasKey(data, SellerOf, v[i].sellerId))
            && (forall j :: 0 <= j < |data| ==> HasKey(v, SellerSalesKey, data[j].sellerId))
  {
    GroupViewKeys(data, SellerOf, GetSalesPerSeller(data), SellerSalesKey);
  }

  /** A seller's row: summed price, row count, summed quantity and first city of its rows. */
  lemma SellerSalesRow(data: seq<OrderFact>, i: nat)
    requires i < |GetSalesPerSeller(data)|
    ensures var s := GetSalesPerSeller(data)[i]; var g := Filter(data, SellerOf, s.sellerId);
            && g != []
            && s.totalOrdersValue == SumOf(g, Price)
            && s.totalOrders == |g|
            && s.totalProductsSold == SumIntOf(g, Quantity)
            && s.sellerCity == g[0].sellerCity
  {
  }

  /** The seller totals add up to the price column total. */
  lemma SellerTotals(data: seq<OrderFact>)
    ensures SumOf(GetSalesPerSeller(data), SellerSalesValue) == SumOf(data, Price)
  {
    var ks := GroupKeys(data, SellerOf);
    ViewSumIsSumGroups(GetSalesPerSeller(data), SellerSalesValue, data, SellerOf, Price, ks);
    GroupSumsAddUp(data, SellerOf, Price, ks);
  }

  // ---------------------------------------------------------------------
  // Product sales
  // ---------------------------------------------------------------------

  /** One row of `get_product_sales_analysis`. */
  datatype ProductSales = ProductSales(
    productId: Option<string>,
    totalSold: int,
    totalSales: real,
    averagePrice: Option<real>,
    productCategory: Option<string>)

  function ProductSalesKey(p: ProductSales): Option<string> { p.productId }
  function TotalSold(p: ProductSales): int { p.totalSold }

  /** The aggregates of one product's rows; the category is the group's first
      English category name, null or not. */
  function ProductRow(k: Option<string>, g: seq<OrderFact>): ProductSales
    requires g != []
  {
    ProductSales(k, SumIntOf(g, Quantity), SumOf(g, Price), MeanOf(g, Price), g[0].productCategoryNameEnglish)
  }

  /** The product groups before sorting. */
  function ProductGroups(data: seq<OrderFact>): (r: seq<ProductSales>)
    ensures |r| <= |data|
    ensures r == [] <==> data == []
  {
    var ks := GroupKeys(data, ProductOf);
    assert data != [] ==> ProductOf(data[0]) in ks;
    seq(|ks|, i requires 0 <= i < |ks| => ProductRow(ks[i], Filter(data, ProductOf, ks[i])))
  }

  /** `get_product_sales_analysis`: group by `product_id`, then sort on
      `total_sold`, largest first. */
  function GetProductSalesAnalysis(data: seq<OrderFact>): (r: seq<ProductSales>)
    ensures forall i :: 0 <= i < |r| - 1 ==> r[i].totalSold >= r[i + 1].totalSold
    ensures multiset(r) == multiset(ProductGroups(data))
    ensures |r| <= |data|
    ensures r == [] <==> data == []
  {
    SortDesc(ProductGroups(data), TotalSold)
  }

  /** One row per product, in any order: no key twice, every key from the
      input, every input key present. */
  lemma ProductKeys(data: seq<OrderFact>)
    ensures var v := GetProductSalesAnalysis(data);
            && UniqueKeys(v, ProductSalesKey)
            && (forall i :: 0 <= i < |v| ==> HasKey(data, ProductOf, v[i].productId))
            && (forall j :: 0 <= j < |data| ==> HasKey(v, ProductSalesKey, data[j].productId))
  {
    var u := ProductGroups(data);
    var v := GetProductSalesAnalysis(data);
    GroupViewKeys(data, ProductOf, u, ProductSalesKey);
    PermutationKeepsUniqueKeys(u, v, ProductSalesKey);
    forall i | 0 <= i < |v| ensures HasKey(data, ProductOf, v[i].productId) {
      assert v[i] in multiset(u);
    }
    forall j | 0 <= j < |data| ensures HasKey(v, ProductSalesKey, data[j].productId) {
      PermutationKeepsKeys(u, v, ProductSalesKey, data[j].productId);
    }
  }

  /** A product's row, wherever the sort put it: summed quantity, summed price,
      the mean of the non-null prices and the first English category of its rows. */
  lemma ProductSalesRow(data: seq<OrderFact>, i: nat)
    requires i < |GetProductSalesAnalysis(data)|
    ensures var p := GetProductSalesAnalysis(data)[i]; var g := Filter(data, ProductOf, p.productId);
            && g != []
            && p.totalSold == SumIntOf(g, Quantity)
            && p.totalSales == SumOf(g, Price)
            && p.averagePrice == MeanOf(g, Price)
            && p.productCategory == g[0].productCategoryNameEnglish
  {
    var u := ProductGroups(data);
    var p := GetProductSalesAnalysis(data)[i];
    assert p in multiset(u);
    var q :| 0 <= q < |u| && u[q] == p;
    ProductGroupAt(data, q);
  }

  lemma ProductGroupAt(data: seq<OrderFact>, q: nat)
    requires q < |ProductGroups(data)|
    ensures var k := GroupKeys(data, ProductOf)[q]; var g := Filter(data, ProductOf, k);
            g != [] && ProductGroups(data)[q] == ProductRow(k, g)
  {
  }

  /** With every price of the product present, the average price is the
      summed price over the product's row count. */
  lemma ProductAveragePrice(data: seq<OrderFact>, i: nat)
    requires i < |GetProductSalesAnalysis(data)|
    requires var g := Filter(data, ProductOf, GetProductSalesAnalysis(data)[i].productId);
             forall j :: 0 <= j < |g| ==> g[j].price.Some?
    ensures var p := GetProductSalesAnalysis(data)[i]; var g := Filter(data, ProductOf, p.productId);
            && g != []
            && p.averagePrice == Some(p.totalSales / |g| as real)
  {
    ProductSalesRow(data, i);
    var g := Filter(data, ProductOf, GetProductSalesAnalysis(data)[i].productId);
    MeanAllPresent(g, Price);
  }

  /** The coalesced frame computed first: the English category name, or the
      Portuguese one where the English name is null, written over
      `product_category_name`. */
  function CoalesceCategory(f: OrderFact): (c: OrderFact)
    ensures c.productCategoryName.None? <==>
              f.productCategoryNameEnglish.None? && f.productCategoryName.None?
    ensures f.productCategoryNameEnglish.Some? ==> c.productCategoryName == f.productCategoryNameEnglish
    ensures f.productCategoryNameEnglish.None? ==> c.productCategoryName == f.productCategoryName
    ensures c.(productCategoryName := f.productCategoryName) == f
  {
    f.(productCategoryName :=
         if f.productCategoryNameEnglish.None? then f.productCategoryName else f.productCategoryNameEnglish)
  }

  /** The coalesced category never reaches the product view: the view reads
      only `product_id`, `item_quantity`, `price` and the English category, so
      it is the same whether it groups the coalesced frame or the input. */
  lemma CoalescedCategoryIgnored(data: seq<OrderFact>)
    ensures GetProductSalesAnalysis(MapRows(data, CoalesceCategory)) == GetProductSalesAnalysis(data)
  {
    var c := MapRows(data, CoalesceCategory);
    GroupKeysMap(data, CoalesceCategory, ProductOf, ProductOf);
    var ks := GroupKeys(data, ProductOf);
    forall i | 0 <= i < |ks| ensures ProductGroups(c)[i] == ProductGroups(data)[i] {
      CoalescedGroupRow(data, ks[i]);
    }
    assert ProductGroups(c) == ProductGroups(data);
  }

  lemma CoalescedGroupRow(data: seq<OrderFact>, k: Option<string>)
    requires HasKey(data, ProductOf, k)
    ensures var c := Filter(MapRows(data, CoalesceCategory), ProductOf, k); var g := Filter(data, ProductOf, k);
            && c != [] && g != [] && ProductRow(k, c) == ProductRow(k, g)
  {
    var g := Filter(data, ProductOf, k);
    FilterMap(data, CoalesceCategory, ProductOf, ProductOf, k);
    ProductRowCoalesced(k, g);
  }

  lemma ProductRowCoalesced(k: Option<string>, g: seq<OrderFact>)
    requires g != []
    ensures ProductRow(k, MapRows(g, CoalesceCategory)) == ProductRow(k, g)
  {
    var h := MapRows(g, CoalesceCategory);
    forall i | 0 <= i < |g|
      ensures Price(h[i]) == Price(g[i]) && Quantity(h[i]) == Quantity(g[i])
      ensures h[i].productCategoryNameEnglish == g[i].productCategoryNameEnglish
    {
      assert h[i] == CoalesceCategory(g[i]);
    }
    SumIntOfPointwise(h, Quantity, g, Quantity);
    SumOfPointwise(h, Price, g, Price);
    CountOfPointwise(h, Price, g, Price);
  }

  // ---------------------------------------------------------------------
  // Sales snapshot
  // ---------------------------------------------------------------------

  /** The one-row frame of `get_sales_analysis`. */
  datatype SalesSnapshot = SalesSnapshot(
    topSellerId: Option<string>,
    topSellerSales: real,
    topCustomerId: Option<string>,
    topCustomerSpent: real,
    mostSoldProductId: Option<string>,
    mostSoldProductCount: nat,
    avgOrderValue: Option<real>,
    avgShippingFee: Option<real>)

  /** Taking row 0 of an empty sorted group-by fails. */
  datatype AnalysisError = EmptyTable

  datatype Result<T> = Ok(value: T) | Err(error: AnalysisError)

  /** The summed price of a group. */
  function Sales(g: seq<OrderFact>): real { SumOf(g, Price) }

  /** `count('order_id')` of a group: its size, as order ids are never null. */
  function RowCount(g: seq<OrderFact>): real { |g| as real }

  /** `get_sales_analysis`: the top seller and customer by summed price, the
      product with the most rows, and the mean price and freight. The input
      must have a row, since row 0 of each sorted group-by is taken. */
  function GetSalesAnalysis(data: seq<OrderFact>): (r: Result<SalesSnapshot>)
    ensures r.Err? <==> data == []
  {
    if data == [] then Err(EmptyTable)
    else
      var seller := TopGroup(data, SellerOf, Sales);
      var customer := TopGroup(data, CustomerOf, Sales);
      var product := TopGroup(data, ProductOf, RowCount);
      Ok(SalesSnapshot(seller, Sales(Filter(data, SellerOf, seller)),
                       customer, Sales(Filter(data, CustomerOf, customer)),
                       product, |Filter(data, ProductOf, product)|,
                       MeanOf(data, Price), MeanOf(data, Freight)))
  }

  /** The top seller occurs in the input, its sales are its summed price, and
      no seller sold more. */
  lemma SnapshotTopSeller(data: seq<OrderFact>)
    requires data != []
    ensures var s := GetSalesAnalysis(data).value;
            && HasKey(data, SellerOf, s.topSellerId)
            && s.topSellerSales == SumOf(Filter(data, SellerOf, s.topSellerId), Price)
            && forall j :: 0 <= j < |data| ==> SumOf(Filter(data, SellerOf, data[j].sellerId), Price) <= s.topSellerSales
  {
    TopGroupIsMax(data, SellerOf, Sales);
  }

  /** The top customer occurs in the input, its amount is its summed price,
      and no customer spent more. */
  lemma SnapshotTopCustomer(data: seq<OrderFact>)
    requires data != []
    ensures var s := GetSalesAnalysis(data).value;
            && HasKey(data, CustomerOf, s.topCustomerId)
            && s.topCustomerSpent == SumOf(Filter(data, CustomerOf, s.topCustomerId), Price)
            && forall j :: 0 <= j < |data| ==>
                 SumOf(Filter(data, CustomerOf, data[j].customerUniqueId), Price) <= s.topCustomerSpent
  {
    TopGroupIsMax(data, CustomerOf, Sales);
  }

  /** The most sold product occurs in the input, its count is its number of
      rows, and no product has more rows. */
  lemma SnapshotMostSoldProduct(data: seq<OrderFact>)
    requires data != []
    ensures var s := GetSalesAnalysis(data).value;
            && HasKey(data, ProductOf, s.mostSoldProductId)
            && s.mostSoldProductCount == |Filter(data, ProductOf, s.mostSoldProductId)|
            && s.mostSoldProductCount >= 1
            && forall j :: 0 <= j < |data| ==> |Filter(data, ProductOf, data[j].productId)| <= s.mostSoldProductCount
  {
    TopGroupIsMax(data, ProductOf, RowCount);
  }

  /** The two means of the snapshot are the `mean` of the price and freight
      columns. */
  lemma SnapshotMeanColumns(data: seq<OrderFact>)
    requires data != []
    ensures GetSalesAnalysis(data).value.avgOrderValue == MeanOf(data, Price)
    ensures GetSalesAnalysis(data).value.avgShippingFee == MeanOf(data, Freight)
  {
  }

  /** Each mean is the column sum over the number of non-null cells: over the
      number of rows when no cell is null, and null when every cell is. */
  lemma SnapshotMeans(data: seq<OrderFact>)
    requires data != []
    ensures var s := GetSalesAnalysis(data).value;
            && ((forall j :: 0 <= j < |data| ==> data[j].price.Some?) ==>
                  s.avgOrderValue == Some(SumOf(data, Price) / |data| as real))
            && ((forall j :: 0 <= j < |data| ==> data[j].freightValue.Some?) ==>
                  s.avgShippingFee == Some(SumOf(data, Freight) / |data| as real))
            && ((forall j :: 0 <= j < |data| ==> data[j].price.None?) ==> s.avgOrderValue == None)
            && ((forall j :: 0 <= j < |data| ==> data[j].freightValue.None?) ==> s.avgShippingFee == None)
            && ((exists j :: 0 <= j < |data| && data[j].price.Some?) ==>
                  |PresentCells(data, Price)| > 0 &&
                  s.avgOrderValue == Some(SumOf(data, Price) / |PresentCells(data, Price)| as real))
            && ((exists j :: 0 <= j < |data| && data[j].freightValue.Some?) ==>
                  |PresentCells(data, Freight)| > 0 &&
                  s.avgShippingFee == Some(SumOf(data, Freight) / |PresentCells(data, Freight)| as real))
  {
    SnapshotMeanColumns(data);
    MeanCases(data, Price);
    MeanCases(data, Freight);
  }


  /** The snapshot's top seller is a row of the seller view with the largest
      `total_orders_value` there. */
  lemma SnapshotMatchesSellerView(data: seq<OrderFact>)
    requires data != []
    ensures var s := GetSalesAnalysis(data).value; var v := GetSalesPerSeller(data);
            && (exists i :: 0 <= i < |v| && v[i].sellerId == s.topSellerId && v[i].totalOrdersValue == s.topSellerSales)
            && (forall i :: 0 <= i < |v| ==> v[i].totalOrdersValue <= s.topSellerSales)
  {
    SellerViewMeasures(data);
    TopGroupInView(data, SellerOf, Sales, GetSalesPerSeller(data), SellerSalesKey, SellerSalesTotal);
  }

  lemma SellerViewMeasures(data: seq<OrderFact>)
    ensures GroupView(data, SellerOf, Sales, GetSalesPerSeller(data), SellerSalesKey, SellerSalesTotal)
  {
  }

  lemma CustomerViewMeasures(data: seq<OrderFact>)
    ensures GroupView(data, CustomerOf, Sales, GetCustomerSpending(data), SpendingKey, SpendingTotal)
  {
  }

  /** The snapshot's top customer is a row of the customer view with the
      largest `total_orders_value` there. */
  lemma SnapshotMatchesCustomerView(data: seq<OrderFact>)
    requires data != []
    ensures var s := GetSalesAnalysis(data).value; var v := GetCustomerSpending(data);
            && (exists i :: 0 <= i < |v| && v[i].customerUniqueId == s.topCustomerId
                                         && v[i].totalOrdersValue == s.topCustomerSpent)
            && (forall i :: 0 <= i < |v| ==> v[i].totalOrdersValue <= s.topCustomerSpent)
  {
    CustomerViewMeasures(data);
    TopGroupInView(data, CustomerOf, Sales, GetCustomerSpending(data), SpendingKey, SpendingTotal);
  }

  // ---------------------------------------------------------------------
  // The views over the output of `process_data`
  // ---------------------------------------------------------------------

  /** Every row that names a product carries a price. */
  predicate PricedProducts(data: seq<OrderFact>)
  {
    forall j :: 0 <= j < |data| ==> data[j].productId.Some? ==> data[j].price.Some?
  }

  /** In the order-fact table the item columns are null together: a row names
      a product exactly when it has a price, a freight value, a seller and an
      item count. */
  lemma ProcessDataItemColumnsTogether(t: RawTables)
    ensures PricedProducts(ProcessData(t))
    ensures forall i :: 0 <= i < |ProcessData(t)| ==>
              var f := ProcessData(t)[i];
              && (f.productId.Some? <==> f.price.Some?)
              && (f.productId.Some? <==> f.freightValue.Some?)
              && (f.productId.Some? <==> f.sellerId.Some?)
              && (f.productId.Some? <==> f.itemQuantity.Some?)
  {
    var w := OrdersFull(t);
    forall i | 0 <= i < |ProcessData(t)|
      ensures var f := ProcessData(t)[i];
              && (f.productId.Some? <==> f.price.Some?)
              && (f.productId.Some? <==> f.freightValue.Some?)
              && (f.productId.Some? <==> f.sellerId.Some?)
              && (f.productId.Some? <==> f.itemQuantity.Some?)
    {
      assert ProcessData(t)[i] == Project(w[i]);
    }
  }

  /** On the order-fact table, the average price of every named product is its
      summed price over its number of rows. */
  lemma ProductAveragePriceOfFacts(t: RawTables, i: nat)
    requires i < |GetProductSalesAnalysis(ProcessData(t))|
    requires GetProductSalesAnalysis(ProcessData(t))[i].productId.Some?
    ensures var data := ProcessData(t); var p := GetProductSalesAnalysis(data)[i];
            var g := Filter(data, ProductOf, p.productId);
            && g != []
            && p.averagePrice == Some(p.totalSales / |g| as real)
  {
    ProcessDataItemColumnsTogether(t);
    PricedProductAverage(ProcessData(t), i);
  }

  lemma PricedProductAverage(data: seq<OrderFact>, i: nat)
    requires PricedProducts(data)
    requires i < |GetProductSalesAnalysis(data)|
    requires GetProductSalesAnalysis(data)[i].productId.Some?
    ensures var p := GetProductSalesAnalysis(data)[i]; var g := Filter(data, ProductOf, p.productId);
            && g != []
            && p.averagePrice == Some(p.totalSales / |g| as real)
  {
    var p := GetProductSalesAnalysis(data)[i];
    var g := Filter(data, ProductOf, p.productId);
    forall j | 0 <= j < |g| ensures g[j].price.Some? {
      assert g[j] in data;
    }
    ProductAveragePrice(data, i);
  }
}
