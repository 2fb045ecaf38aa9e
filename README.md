# Order facts and sales analytics: a Dafny model

This project models the pure core of a small e-commerce analytics pipeline
built on dataframes. There are two parts.

1. **`process_data`** (src/database.py) turns eight raw tables into one
   order-fact row per order. The raw tables are customers, orders, order
   items, payments, reviews, products, sellers and the category translation.
   - It left-joins orders with customers and order items with products.
   - It aggregates items, payments and reviews per `order_id`.
   - It attaches those aggregates, the seller and the English category name
     by further left joins.
   - It projects twenty columns.
2. **The analytics views** (src/processing.py) group that fact table:
   - customer spending;
   - sales per seller;
   - product sales, sorted by units sold;
   - a one-row sales snapshot.

Everything is a whole-table function without side effects. The model is
therefore written as datatypes, functions and lemmas, in four modules:

- `Table` (table.dfy) defines the dataframe primitives the code relies on:
  - group-by keys and groups (`GroupKeys`, `Filter`);
  - null-skipping `sum`, `count`, `mean`, `min` and `max`;
  - the left join, which keeps duplicates (`LeftJoin`);
  - a descending sort (`SortDesc`);
  - taking the top row of a sorted group-by (`TopGroup`).
- `Database` (database.py model) holds the raw and intermediate tables,
  `ProcessData`, and its properties for one output row.
- `Processing` (processing.py model) holds the four views and their
  properties.
- `Scenarios` replays the fixtures of tests/test_database.py and
  tests/test_api.py.

How values are represented:

- Money is an exact `real` and a timestamp an `int`.
- A nullable cell is an `Option`.
- A table is a `seq` of rows.
- A group's rows keep source order, so "first" means the first row of the
  group in the input.

Dataframe semantics followed by the model:

- `sum` skips nulls, and an all-null or empty column sums to 0.
- `mean` skips nulls, and an all-null column gives null.
- `count` of a key column is the group size, because those columns are never
  null.
- `first` keeps a null.
- A null join key matches nothing.
- A left join repeats a left row once for every right row with an equal key.
- `cast(Int32)` of the mean review score truncates toward zero.

Points where the code's behaviour is easy to misread, and which the model
follows exactly:

- **No rounding.** src/processing.py:26-29, 40, 60-61 and 86-89 apply no
  rounding to any sum or mean, so the model keeps exact values.
- **No Portuguese category fallback in the product view.** The code builds the
  coalesced frame (src/processing.py:51-56) but then groups the original
  `data` (line 58). So `product_category` is the group's first English name.
  `Processing.CoalescedCategoryIgnored` proves the coalesced column cannot
  affect the product view.
- **Review score truncates.** `cast(pl.Int32)` at src/database.py:123
  truncates toward zero: 4.9 becomes 4 and -4.9 becomes -4.
- **Most-sold count is a row count.** `count('order_id')` at
  src/processing.py:82 counts the fact rows of the product, not distinct
  orders.
- **One row per order needs unique right keys.** Each left join of
  src/database.py:100-134 repeats a left row for every matching right row. So
  the result has exactly one row per order only when customer ids, seller ids
  and translation keys are unique (`Database.ProcessDataRows`). Otherwise the
  model keeps the duplicates, and every order id still appears
  (`Database.ProcessDataKeepsOrders`). Duplicate product ids do not add
  order rows: the product join (line 103) runs before the group-by on
  `order_id` (lines 106-113), so they only repeat item rows and inflate that
  order's item sums and count.

## Model

| member | source | states |
|---|---|---|
| `Table.Filter` | src/processing.py:25 | the group of key k holds exactly the rows whose key is k, all from the table, and is empty exactly when no row has key k |
| `Table.GroupKeys` | src/processing.py:25 | the group-by keys are duplicate-free, each occurs in the table, every row's key is among them, and there are no more keys than rows |
| `Table.GroupViewKeys` | src/processing.py:25-33 | a view with one row per group key has unique keys, only keys from the input, and every input key |
| `Table.FilterMultiset` | src/processing.py:25 | the group of key k holds each row with key k exactly as often as the table does, and no other row |
| `Table.FilterFirst` | src/database.py:109-111 | the first row of a group is the first row of the table with that key |
| `Table.SumOfAllNull` | src/processing.py:26 | `sum` skips nulls: an empty or all-null column sums to 0 |
| `Table.SumIntOfAllNull` | src/processing.py:42 | the integer `sum` skips nulls: an empty or all-null column sums to 0 |
| `Table.CountOf` | src/processing.py:61 | `count` is at most the number of rows and is zero exactly when every cell is null |
| `Table.CountIsPresentCells` | src/processing.py:86-89 | `count` is the number of rows whose cell is not null |
| `Table.MeanOf` | src/processing.py:61 | `mean` is null exactly when every cell is null; otherwise it is the sum over the number of non-null cells |
| `Table.MeanCases` | src/processing.py:86-89 | when some cell is not null, `mean` is the sum over the number of non-null cells, which is the row count when no cell is null |
| `Table.MeanAllPresent` | src/processing.py:86 | with no null cell, `mean` is the sum divided by the number of rows |
| `Table.MaxOf` | src/processing.py:30 | `max` is the value of some row of the group and no row exceeds it |
| `Table.MinOf` | src/processing.py:31 | `min` is the value of some row of the group and no row is below it |
| `Table.ArgMax` | src/processing.py:73 | the first row after a descending sort holds a value no other row exceeds |
| `Table.GroupSumsAddUp` | src/processing.py:26-29 | the group sums of a column add up to the column total |
| `Table.ViewSumIsSumGroups` | src/processing.py:26-29 | a view carrying each group's sum adds up like the groups |
| `Table.Lookup` | src/database.py:129 | a lookup finds a right row with the key, and finds nothing exactly when the key is null or absent |
| `Table.LeftJoin` | src/database.py:100 | a left join has at least as many rows as the left table |
| `Table.LeftJoinKeepsRows` | src/database.py:100 | whatever the right table holds, every left row reappears in the join, combined with null or with a right row whose key equals its own |
| `Table.LeftJoinUnique` | src/database.py:100 | against unique right keys, a left join yields one row per left row, in order, combined with the key's lookup (null when absent) |
| `Table.LeftJoinHead` | src/database.py:100 | against unique right keys, the first left row contributes exactly one joined row, carrying its lookup |
| `Table.LeftJoinKeepsKeys` | src/database.py:103 | a key occurs in the joined table exactly when it occurs in the left table |
| `Table.FilterUnique` | src/database.py:131 | against unique right keys a group has at most one row, the lookup |
| `Table.AggLookup` | src/database.py:127-134 | an aggregate with one row per distinct key has unique keys, and looking up a key finds its row, or null for a key not present |
| `Table.GroupedLookup` | src/database.py:106-124 | an aggregate with one row per group, in group order, has unique keys; looking a key up finds the row at that key's group position, or nothing when no input row has the key |
| `Table.SortDesc` | src/processing.py:63 | the sorted table is in non-increasing order and is a permutation of the input |
| `Table.PermutationKeepsUniqueKeys` | src/processing.py:63 | sorting keeps the keys unique |
| `Table.PermutationKeepsKeys` | src/processing.py:63 | sorting keeps the set of keys |
| `Table.TopGroup` | src/processing.py:73 | the top group's key occurs in the table |
| `Table.TopGroupIsMax` | src/processing.py:71-83 | the top group occurs in the table and no group measures more |
| `Table.TopGroupInView` | src/processing.py:71-78 | the top group is the row of the view with the largest measure |
| `Table.GroupViewHasKey` | src/database.py:106-124 | a view with one row per group key has a row for key k exactly when some input row has key k |
| `Table.MapRowsKeepsKeys` | src/database.py:137-158 | a row-wise projection that keeps the key keeps the set of keys |
| `Table.FilterMap` | src/processing.py:51-58 | rewriting columns other than the key commutes with taking a group |
| `Table.GroupKeysMap` | src/processing.py:51-58 | rewriting columns other than the key keeps the group keys |
| `Table.SumOfBounds` | src/database.py:123 | bounds on every cell bound the sum |
| `Database.TruncateToInt` | src/database.py:123 | the cast truncates toward zero: the result is within one of the value, on the side of zero |
| `Database.TruncationExamples` | src/database.py:123 | 4.9 casts to 4 and -4.9 to -4 |
| `Database.MeanScoreInScale` | src/database.py:123 | the truncated mean of review scores from 1 to 5 is from 1 to 5 |
| `Database.ItemsWithProductsKeepsOrders` | src/database.py:103 | the product join keeps every item's order id and adds no other |
| `Database.ItemsAggOrders` | src/database.py:103-113 | `order_items_agg` has unique order ids: one row for each order with item rows, and no other |
| `Database.PaymentsAggOrders` | src/database.py:116-119 | `payments_agg` has unique order ids: one row for each order with payments, and no other |
| `Database.ReviewsAggOrders` | src/database.py:122-124 | `reviews_agg` has unique order ids: one row for each order with reviews, and no other |
| `Database.ItemsAggLookup` | src/database.py:106-113 | `order_items_agg` has one row per order; looking an order up gives the aggregate of its item rows, or null when it has none |
| `Database.PaymentsAggLookup` | src/database.py:116-119 | `payments_agg` has one row per order; the lookup is the aggregate of its payments, or null when there are none |
| `Database.ReviewsAggLookup` | src/database.py:122-124 | `reviews_agg` has one row per order; the lookup is the truncated mean of its reviews, or null when there are none |
| `Database.ItemsAggOfOrder` | src/database.py:103-113 | with unique product ids, an order's item aggregate holds the sums, first product, category and seller, and count of its own raw item rows |
| `Database.ItemsAggAbsent` | src/database.py:106-113 | an order without item rows has no item aggregate, whatever the products |
| `Database.OrdersFull` | src/database.py:127-134 | the chain of left joins has at least as many rows as there are orders |
| `Database.OrdersFullKeepsOrders` | src/database.py:127-134 | whatever duplicates the right tables hold, an order id occurs after the six joins exactly when it occurs in `orders` |
| `Database.Project` | src/database.py:137-158 | the projected row keeps the order id; product id, price, freight, seller and item quantity are null together, and the category is null when the product is |
| `Database.ProcessData` | src/database.py:137-158 | the result has at least as many rows as there are orders |
| `Database.ProcessDataKeepsOrders` | src/database.py:87-163 | whatever duplicates the right tables hold, an order id occurs in the result exactly when it occurs in `orders` |
| `Database.ProcessDataRows` | src/database.py:127-134 | with unique customer, seller and translation keys, the result has exactly one row per order, in order, and it is the order's joined and projected row |
| `Database.OrdersFullRows` | src/database.py:127-134 | before projection, the six left joins give one row per order, in order, with every lookup attached |
| `Database.ProcessDataOrderColumns` | src/database.py:137-145 | the order's own columns pass through unchanged |
| `Database.ProcessDataCustomer` | src/database.py:100 | customer columns come from the customer with the order's `customer_id`; both are null when there is none, and the order is kept |
| `Database.ProcessDataItemSums` | src/database.py:106-113 | price and freight are the sums over the order's item rows, and item quantity their number |
| `Database.ProcessDataFirstItem` | src/database.py:109-111 | product, category and seller come from the order's first item row; seller city and English category are looked up from them; the English category is null when the category is null or has no translation row |
| `Database.ProcessDataNoItems` | src/database.py:129-133 | an order without items gets null item columns, and also null seller city and English category |
| `Database.ProcessDataPayments` | src/database.py:116-119 | payment value is the sum and installments the first row's of the order's payments; both are null without payments |
| `Database.ProcessDataReviews` | src/database.py:122-124 | review score is the truncated mean of the order's review scores, null without reviews |
| `Database.ReviewScoreInScale` | src/database.py:123 | with every review score from 1 to 5, every order's review score is from 1 to 5 |
| `Processing.GetCustomerSpending` | src/processing.py:23-35 | there are no more customer rows than input rows, and none exactly when the input is empty |
| `Processing.CustomerGroups` | src/processing.py:25 | one row per distinct `customer_unique_id`: no key twice, no key absent from the input, every input key present |
| `Processing.CustomerSpendingRow` | src/processing.py:26-32 | each row holds the unrounded sums of price, freight and payment of that customer's rows, their count, the latest and earliest purchase among them (first ≤ last), and the first city |
| `Processing.CustomerTotals` | src/processing.py:26-29 | the customer totals of price, freight and payment add up to the column totals |
| `Processing.GetSalesPerSeller` | src/processing.py:37-46 | there are no more seller rows than input rows, and none exactly when the input is empty |
| `Processing.SellerGroups` | src/processing.py:39 | one row per distinct `seller_id`, every input seller present |
| `Processing.SellerSalesRow` | src/processing.py:39-44 | each row holds the seller's summed price, its row count, its summed item quantity and its first city |
| `Processing.SellerTotals` | src/processing.py:40 | the seller totals add up to the price column total |
| `Processing.ProductGroups` | src/processing.py:58-62 | there are no more product groups than input rows, and none exactly when the input is empty |
| `Processing.GetProductSalesAnalysis` | src/processing.py:58-63 | the rows are in non-increasing `total_sold` order and are a reordering of the product groups |
| `Processing.ProductKeys` | src/processing.py:58 | after sorting there is still one row per distinct `product_id`, every input product present |
| `Processing.ProductSalesRow` | src/processing.py:59-62 | each row holds the product's summed quantity, summed price, mean of its non-null prices and first English category |
| `Processing.ProductAveragePrice` | src/processing.py:61 | with every price present, the average price is the summed price over the row count |
| `Processing.ProductAveragePriceOfFacts` | src/processing.py:61 | on `process_data` output, every named product's average price is its summed price over its row count |
| `Processing.PricedProductAverage` | src/processing.py:61 | where every row naming a product carries a price, each named product's average price is its summed price over its row count |
| `Processing.ProcessDataItemColumnsTogether` | src/database.py:147-152 | in the fact table, product id, price, freight, seller and item quantity are null together |
| `Processing.CoalesceCategory` | src/processing.py:51-56 | the coalesced category is the English name when present, else the Portuguese one; it is null only when both are; no other column changes |
| `Processing.CoalescedCategoryIgnored` | src/processing.py:51-58 | the product view is the same whether it groups the coalesced frame or the input, so the fallback has no effect |
| `Processing.CoalescedGroupRow` | src/processing.py:51-62 | a product group of the coalesced frame aggregates to the same row as in the input |
| `Processing.GetSalesAnalysis` | src/processing.py:68-104 | the snapshot is an error exactly when the input is empty, since row 0 of an empty sorted frame does not exist |
| `Processing.SnapshotTopSeller` | src/processing.py:71-73 | the top seller occurs in the input, its sales are its summed price, and no seller's summed price is higher |
| `Processing.SnapshotTopCustomer` | src/processing.py:76-78 | the top customer occurs in the input, its amount is its summed price, and no customer's is higher |
| `Processing.SnapshotMostSoldProduct` | src/processing.py:81-83 | the most sold product occurs in the input, its count is its number of rows (at least one), and no product has more |
| `Processing.SnapshotMeanColumns` | src/processing.py:86-89 | the two snapshot means are the `mean` of the price and freight columns |
| `Processing.SnapshotMeans` | src/processing.py:86-89 | each mean is the column sum over the number of non-null cells when some cell is not null, the sum over the row count when none is null, and null when all are |
| `Processing.SnapshotMatchesSellerView` | src/processing.py:71-73 | the top seller is a row of the seller view with the largest `total_orders_value` |
| `Processing.SnapshotMatchesCustomerView` | src/processing.py:76-78 | the top customer is a row of the customer view with the largest `total_orders_value` |
| `Scenarios.MockOrderOne` | tests/test_database.py:56-63 | on the test tables there are two rows, and order_1 has price 80.0, freight 10.0, quantity 2 and its first item's product, seller, seller city and English category |
| `Scenarios.ApiSalesAnalysis` | tests/test_api.py:96-99 | on the two test rows, mean price is 150.0, mean freight 15.0, the most-sold count 1, and seller_2 is top with 200.0 |
| `Scenarios.ApiCustomers` | tests/test_api.py:66-67 | on the two test rows, the customer view has two rows, keyed cust_1 and cust_2 |

## Left out

- File and database I/O is not modelled: CSV loading, the SQLAlchemy schema, sessions and inserts in src/database.py, and `load_data_from_db`, `save_to_duckdb` and `analyze_and_load` in src/processing.py. These are storage plumbing. `process_data` and the views receive tables as values.
- The `describe()` print and the logging calls are side effects only.
- src/api.py and src/main.py are routing and bootstrapping. The four views api.py calls (src/api.py:39, 52, 64, 76) are modelled. The other functions it calls on the processing module, `create_engine`, `get_orders_by_date`, `get_top_customers`, `get_orders_by_customer`, `get_orders_by_seller` and `get_orders_by_product` (src/api.py:26, 102, 117, 132, 147, 162), are not part of this model, because src/processing.py does not define them.
- Floating point is not modelled. Money is an exact `real`, and means are exact divisions.
- The 32-bit width of `cast(Int32)` is not modelled, because the mean of review scores on the 1 to 5 scale (`Database.ScoresInScale`) cannot overflow it; scores outside that scale are unbounded integers in the model and are not wrapped.
- Group order and ties are not fixed by the source, because neither group-by nor the sort is stable. The model lists groups in first-appearance order and picks the first maximum. Every property about the views and the snapshot holds whatever that order.
- Raw input columns are non-null except `order_approved_at`, the two delivered dates and the product category name, as in the source data.
- The raw timestamp and date columns are plain integers. Calendar parsing is not modelled.
- Database.ProcessDataItemSums: also requires unique product ids. With duplicate product ids, the item join repeats item rows, and the sums count them more than once. Database.ItemsAggAbsent covers the absent case without that requirement.
- Database.ProcessDataFirstItem: also requires unique product ids, for the same reason.
- Processing.GetSalesAnalysis: the six `top_*` cells of the one-row frame are one-element list cells in src/processing.py:92-101, because each wraps in a list the one-element column of the one-row frame that `[0]` selects; the two means, taken straight from a one-row column, are scalars. The model stores each `top_*` cell as the single value inside that list.
