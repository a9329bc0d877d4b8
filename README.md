# Bakery inventory scripts, modelled in Dafny

This project models the deterministic core of a set of Python scripts for a bakery's inventory work. The core has five parts:

- **EOQ inventory policy.** For each ingredient, `modelo_inventario` computes the economic order quantity (the lot size), the reorder interval, the reorder stock, the maximum stock and the expected total cost (CTE). Three sensitivity scripts evaluate the same CTE formula (`calcular_cte`) over a grid of lot sizes or over sampled demands.
- **ABC classification.** For products, the measured demand (quantity × unit price) is summed per article. For ingredients, the required total is summed per ingredient. The totals are ranked in descending order, their percentage shares are accumulated, and the cumulative share is binned into the right-closed intervals (0,80], (80,95] and (95,100] as A, B and C. The class-A articles are then listed.
- **Ingredient data.**
  - The recipe table is cleaned: empty columns are dropped, the columns are renamed to the 24 product names, the table is transposed and missing cells become zero.
  - The total ingredients a set of sales requires is the quantity sold × the recipe amount.
  - A weekly table, accumulated in place, holds the ingredients used in each sales week.
- **Sales cleaning.**
  - Prices are sanitised to digits, `,`, `.` and `-`, the decimal comma is turned into a point, and the result is parsed.
  - Non-numeric quantities become missing.
  - The cleaning scripts keep only the rows with positive quantity and price.
  - The preparation script instead adds the measured demand to every row.
- **Intercalated validation.** Windows of `train` points followed by `test` points are placed one after another from the start of each weekly series. For each window, the mean of a forecast is compared with the mean of the test points.

The modules follow that structure:

| module | part |
|---|---|
| `Common` | shared pieces: errors and results, sums, concatenation, filters |
| `CostModel` | the CTE formula |
| `Inventory` | the EOQ policy |
| `SensitivityQ`, `SensitivityD`, `SensitivitySampling` | the three sensitivity scripts |
| `Abc` | the shared ABC rule |
| `SalesAbc` | the product ABC analysis |
| `SalesCleaning` | price and row cleaning |
| `IngredientTable` | the recipe-table cleaning |
| `IngredientAbc` | ingredient requirements and their ABC analysis |
| `WeeklySeries` | the weekly ingredient table |
| `Validation` | the window loop |

The two forms of code are modelled as follows:

- Code that builds values with expressions becomes functions with lemmas about them.
- Loops that append to lists or update a table in place become methods, proved against specification functions:
  - The grid and sampling loops of the sensitivity scripts.
  - The window loop.
  - The column-by-column zero fill.
  - The weekly table, which the model keeps in an `array2`.

Floats are modelled as `real`. Errors that Python raises are modelled as `Err` values. The following are parameters, because their code is not part of this model:

- The square root (`sqrt`, with `SqrtSpec` stating what it must satisfy).
- The random samples.
- The week of a date (`weekOf`).
- The forecast of the fitted time-series model (`forecast`).
- `pd.to_numeric` on one value (`toNumeric`).

Two facts about the code that the model keeps:

- `modelo_inventario` accepts any D and c1 (inventory_models.py:11-14). The model does not require them to be positive. Where Python raises, the model returns the same error: a zero c1 or D divides by zero, and a negative square-root argument is a math domain error.
- In `sensitivity_analysis.py`, the CTE receives the raw sample, without the season-duration factor that the other two scripts apply. The model does the same.

## Model

| member | source | states |
|---|---|---|
| CostModel.Cte | inventory_models.py:23 | The expected total cost with non-negative D, k and c1 and a positive lot size is at least its fixed part b·D + Sp·c1, because the ordering and holding terms are never negative |
| CostModel.CteExceedsFixedPart | inventory_models.py:23 | With positive demand, order cost, lot size and holding cost, the expected total cost is strictly above its fixed part b·D + Sp·c1 |
| CostModel.CteNonNegative | sensitivity_analysis_q.py:29-30 | With non-negative parameters and a positive lot size, the expected total cost is non-negative |
| CostModel.EoqBalancesTerms | inventory_models.py:11-23 | At a lot size whose square is 2·D·k/c1, the ordering term D·k/q equals the holding term q·c1/2 |
| CostModel.EoqMinimisesCte | inventory_models.py:11-23 | The EOQ lot size costs no more than any other positive lot size; the excess cost of q' is exactly c1·(q − q')²/(2·q') |
| Inventory.RootZeroIffOrderCostZero | inventory_models.py:11-14 | When q ≥ 0, q·q = 2·D·k/c1 and D ≠ 0, the lot size is zero exactly when the order cost k is zero |
| Inventory.ComputableIff | inventory_models.py:11-23 | An ingredient's policy can be computed exactly when c1 ≠ 0, the square-root argument is non-negative, D ≠ 0 and k ≠ 0 |
| Inventory.ComputePolicy | inventory_models.py:6-31 | Succeeds exactly when the policy is computable. A negative square-root argument gives a math domain error; c1 = 0, D = 0 or a zero lot size give a zero-division error. On success the five figures are computed at the square root |
| Inventory.MakePolicy | inventory_models.py:14-23 | The stored figures keep q, satisfy t·D = q, SR = D·LT + Sp and S − q = Sp, and the CTE is the shared cost formula at q |
| Inventory.PolicyFormulas | inventory_models.py:11-23 | A computed policy has q > 0 with q·q = 2·D·k/c1, together with the four other formulas |
| Inventory.PositiveInputsGivePolicy | inventory_models.py:11-23 | With D, k, c1 > 0 and Sp ≥ 0 there is no error, and q > 0, t > 0, S ≥ Sp and CTE > b·D + Sp·c1 |
| Inventory.ReorderStockCoversProtection | inventory_models.py:17 | With D, LT ≥ 0 the reorder stock is at least the protective stock |
| Inventory.PolicyIsCostOptimal | inventory_models.py:11-23 | At the computed q the ordering and holding terms are equal, CTE = q·c1 + b·D + Sp·c1, and no positive lot size has a lower CTE |
| Inventory.PoliciesErrPersists | inventory_models.py:5-32 | Once an ingredient raises, the whole call raises that same error, whatever follows |
| Inventory.PoliciesOk | inventory_models.py:4-32 | With distinct names, the call succeeds exactly when every ingredient's policy does. The result then has exactly the ingredient names as keys, each mapped to that ingredient's policy |
| Inventory.Policies | inventory_models.py:5-32 | The call succeeds exactly when every ingredient's policy succeeds |
| Inventory.PoliciesKeys | inventory_models.py:26-32 | A successful result has exactly one key per input ingredient name |
| Inventory.PoliciesValues | inventory_models.py:26-32 | With distinct names, every ingredient's entry in a successful result is its own policy |
| Inventory.PoliciesErr | inventory_models.py:5-32 | A failed call fails with the error of the first failing ingredient; every ingredient before it succeeds |
| Inventory.PoliciesAllOk | inventory_models.py:5-32 | In a successful call every ingredient's policy succeeded |
| Inventory.ModeloInventario | inventory_models.py:3-33 | The loop over the ingredients returns the per-ingredient specification |
| Inventory.InventoryResult | inventory_models.py:3-33 | With distinct names: success exactly when every ingredient is computable; keys and values as above on success; otherwise the first failing ingredient's error |
| SensitivityQ.Linspace | sensitivity_analysis_q.py:36 | `np.linspace` gives exactly n values: `lo` alone for n = 1, otherwise lo + i·(hi − lo)/(n − 1) for i < n − 1 and `hi` itself last |
| SensitivityQ.GenerarQs | sensitivity_analysis_q.py:33-36 | 20 values from v/4 to 4·v, every consecutive difference equal to (4·v − v/4)/19 |
| SensitivityQ.GridIsPositiveAndIncreasing | sensitivity_analysis_q.py:33-36 | For v > 0 the grid is positive and strictly increasing; for v ≠ 0 no grid value is zero, so no CTE call divides by zero |
| SensitivityQ.Columns | sensitivity_analysis_q.py:60-64 | The five result lists always have the same length, one entry per row |
| SensitivityQ.ColumnsAt | sensitivity_analysis_q.py:60-64 | Position i of the five lists holds the i-th appended row |
| SensitivityQ.ColumnsSnoc | sensitivity_analysis_q.py:60-64 | Appending a row appends one entry to each of the five lists |
| SensitivityQ.AppendPair | sensitivity_analysis_q.py:50-64 | The loop over the grid appends exactly the 20 rows of one season and ingredient, in grid order |
| SensitivityQ.AppendSeason | sensitivity_analysis_q.py:46-64 | The loop over a season's ingredients appends their blocks in dict order |
| SensitivityQ.GridLoop | sensitivity_analysis_q.py:42-64 | The whole nested loop produces the lists of the specified rows, season by season |
| SensitivityQ.SeasonLength | sensitivity_analysis_q.py:46-64 | A season contributes 20 rows per ingredient |
| SensitivityQ.RowsBeforeSeason | sensitivity_analysis_q.py:42-64 | The seasons before season t contribute 20 rows per (season, ingredient) pair |
| SensitivityQ.AllRowsLength | sensitivity_analysis_q.py:42-64 | The result has 20 rows per (season, ingredient) pair |
| SensitivityQ.RowAt | sensitivity_analysis_q.py:47-57 | The row for season t, ingredient i and grid point j has a fixed position. It holds the season's name, the ingredient, the j-th grid value built from the ingredient's season-1 lot size (non-zero), the demand mean × season duration, and the CTE with k = 30000 and the ingredient's b, c1, Sp |
| SensitivityQ.PairRowsInAllRows | sensitivity_analysis_q.py:42-64 | The block of a season and an ingredient sits at offset 20 × (earlier pairs) + 20·i in the result |
| SensitivityQ.AllRowsAt | sensitivity_analysis_q.py:42-64 | A season's rows follow, unchanged, the rows of all earlier seasons |
| SensitivityQ.PairRowAt | sensitivity_analysis_q.py:47-57 | The j-th row of a (season, ingredient) block uses the j-th grid value of season 1's lot size, demand mean × duration, k = 30000 and the ingredient's costs |
| SensitivityQ.SeasonRowAt | sensitivity_analysis_q.py:46-64 | Inside a season, ingredient i's block starts at row 20·i |
| SensitivityD.Columns | sensitivity_analysis_d.py:110-115 | The six result lists always have the same length, one entry per row |
| SensitivityD.ColumnsAt | sensitivity_analysis_d.py:110-115 | Position i of the six lists holds the i-th appended row |
| SensitivityD.ColumnsSnoc | sensitivity_analysis_d.py:110-115 | Appending a row appends one entry to each of the six lists |
| SensitivityD.AppendSet | sensitivity_analysis_d.py:102-115 | The loop over the samples appends exactly one lot-size set's rows, numbered 1..n |
| SensitivityD.AppendPair | sensitivity_analysis_d.py:101-115 | The loop over the lot-size sets appends one block per set, reusing the same samples |
| SensitivityD.AppendSeason | sensitivity_analysis_d.py:96-115 | The loop over a season's ingredients appends their blocks in dict order |
| SensitivityD.GenerarResultados | sensitivity_analysis_d.py:86-116 | The whole nested loop produces the lists of the specified rows |
| SensitivityD.PairLength | sensitivity_analysis_d.py:99-115 | One (season, ingredient) pair gives (number of lot-size sets) × (number of samples) rows |
| SensitivityD.SeasonLength | sensitivity_analysis_d.py:96-115 | A season gives sets × samples rows per ingredient |
| SensitivityD.RowsBeforeSeason | sensitivity_analysis_d.py:92-115 | The seasons before season t give sets × samples rows per pair |
| SensitivityD.AllRowsLength | sensitivity_analysis_d.py:92-116 | The result has sets × samples rows per (season, ingredient) pair |
| SensitivityD.RowAt | sensitivity_analysis_d.py:102-115 | The row for season t, ingredient i, set qi and sample m has a fixed position. Its "q" column is the set's key, not the lot size; its Muestra is m + 1; its demand is sample × duration; its CTE uses k = 30000, that set's lot size and the ingredient's b, c1, Sp |
| SensitivityD.SetRowInAllRows | sensitivity_analysis_d.py:92-115 | That position of the result holds the m-th row of the set's block |
| SensitivityD.AllRowsAt | sensitivity_analysis_d.py:92-115 | A season's rows follow, unchanged, the rows of all earlier seasons |
| SensitivityD.SetRowAt | sensitivity_analysis_d.py:103-107 | The m-th row of a set's block has Muestra m + 1, demand sample × duration and the CTE at that set's lot size |
| SensitivityD.PairRowAt | sensitivity_analysis_d.py:101-115 | Inside a pair's rows, set qi's block starts at qi × samples |
| SensitivityD.SeasonRowAt | sensitivity_analysis_d.py:96-115 | Inside a season, ingredient i's rows start at i × sets × samples |
| SensitivitySampling.Columns | sensitivity_analysis.py:63-67 | The five result lists always have the same length, one entry per row |
| SensitivitySampling.ColumnsAt | sensitivity_analysis.py:63-67 | Position i of the five lists holds the i-th appended row |
| SensitivitySampling.ColumnsSnoc | sensitivity_analysis.py:63-67 | Appending a row appends one entry to each of the five lists |
| SensitivitySampling.SkipSpaces | sensitivity_analysis.py:44 | `split()` skips a maximal run of whitespace |
| SensitivitySampling.WordEnd | sensitivity_analysis.py:44 | A word of `split()` runs to the next whitespace or the end |
| SensitivitySampling.FirstWord | sensitivity_analysis.py:44-45 | `split()[0]` raises an index error exactly when the name is all whitespace. Otherwise it is a non-empty word without whitespace that occurs in the name |
| SensitivitySampling.FirstWordIs | sensitivity_analysis.py:44-45 | A name starting with a word has that word first |
| SensitivitySampling.MediaKey | sensitivity_analysis.py:44 | The mean column's name: an IndexError exactly for a blank name, otherwise a blank-free word followed by `_Media` |
| SensitivitySampling.DeKey | sensitivity_analysis.py:45 | The deviation column's name: an IndexError exactly for a blank name, otherwise a blank-free word followed by `_DE` |
| SensitivitySampling.ListKeys | sensitivity_analysis.py:41-45 | The four listed ingredients read the columns Harina_Media/Harina_DE, Manteca_…, Sal_…, Azúcar_… |
| SensitivitySampling.PairRows | sensitivity_analysis.py:51-67 | One ingredient of one table row gives 30 rows |
| SensitivitySampling.AppendSamples | sensitivity_analysis.py:51-67 | The loop over the samples appends exactly the 30 specified rows |
| SensitivitySampling.AppendSeason | sensitivity_analysis.py:43-67 | The loop over the listed ingredients appends their blocks in list order |
| SensitivitySampling.SeasonLength | sensitivity_analysis.py:43-67 | A table row gives 120 rows |
| SensitivitySampling.SamplingLoop | sensitivity_analysis.py:39-67 | The whole nested loop produces the lists of the specified rows, table row by table row |
| SensitivitySampling.RowAt | sensitivity_analysis.py:53-67 | Row n = 120·t + 30·i + m holds the season, the i-th listed ingredient and Muestra n + 1. Its demand is the raw sample, and its CTE is taken at that sample with q = 1000, k = 30000 and the ingredient's b, c1, Sp |
| SensitivitySampling.AllRowsAt | sensitivity_analysis.py:39-67 | A table row's 120 rows follow, unchanged, those of all earlier table rows |
| SensitivitySampling.SeasonRowAt | sensitivity_analysis.py:43-67 | Inside a table row's rows, ingredient i's block starts at 30·i |
| SensitivitySampling.AllRowsLength | sensitivity_analysis.py:39-67 | The result has 120 rows per row of the statistics table |
| SensitivitySampling.RowNumbering | sensitivity_analysis.py:65 | Muestra numbers the rows 1..N globally, across seasons and ingredients |
| Abc.CutFrom | abc_productos.py:50 | `pd.cut` with increasing bins gives the label of the right-closed bin containing x, and no label when no bin does |
| Abc.Cut | abc_productos.py:50 | A iff 0 < x ≤ 80, B iff 80 < x ≤ 95, C iff 95 < x ≤ 100, no category iff x ≤ 0 or x > 100 |
| Abc.CutMonotone | abc_productos.py:50 | For 0 < x ≤ y ≤ 100 both get a category and x's category is not after y's |
| Abc.Cumsum | abc_productos.py:49 | Entry i of the cumulative sum is the sum of the first i + 1 values |
| Abc.CumsumNonDecreasing | abc_productos.py:49 | The cumulative sum of non-negative values is non-decreasing |
| Abc.CumsumLast | abc_productos.py:49 | The last cumulative sum is the total |
| Abc.Insert | abc_productos.py:45 | Inserting into the ranking adds exactly that element |
| Abc.InsertSorted | abc_productos.py:45 | Inserting into a descending ranking keeps it descending |
| Abc.SortDesc | abc_productos.py:45 | The descending sort is a permutation of its input |
| Abc.SortDescSorted | abc_productos.py:45 | The descending sort is non-increasing in the key |
| Abc.SortMap | abc_productos.py:45 | Sorting commutes with a mapping that keeps the key |
| Abc.SortSum | abc_productos.py:45 | Sorting keeps the total demand |
| Abc.GroupsOf | abc_productos.py:44 | One entry per requested key, holding the total of that key's rows |
| Abc.GroupSum | abc_productos.py:44 | `groupby(...).sum()` gives one entry per distinct article, exactly the articles that occur, each holding the sum of its rows |
| Abc.GroupSumTotal | abc_productos.py:44 | Grouping keeps the grand total |
| Abc.Shares | abc_productos.py:48 | Each percentage is value × 100 / total |
| Abc.SharesPrefixSum | abc_productos.py:48-49 | The sum of the first k percentages is the percentage of the sum of the first k values |
| Abc.SharesSumTo100 | abc_productos.py:48 | The percentages of a non-zero total add up to 100 |
| Abc.SharesThenCumsum | abc_ingredientes.py:63 | Accumulating the percentages gives the same values as cumsum / total × 100 |
| Abc.CumulativeBounds | abc_productos.py:48-49 | For ranked non-negative values with a positive total: every cumulative percentage is in (0,100], they are non-decreasing, and the last is 100 |
| Abc.Analysis | abc_productos.py:45-50 | The analysis has one row per article |
| Abc.AnalysisRanks | abc_productos.py:45 | The rows are the descending sort of the totals, a permutation of them, non-increasing in demand |
| Abc.AnalysisRanksAt | abc_productos.py:45 | An earlier row never has less demand than a later one |
| Abc.ZeroTotalLeavesRowsUnclassified | abc_productos.py:48-50 | With a zero total every share and cumulative share is undefined (NaN) and no row gets a category |
| Abc.AnalysisShares | abc_productos.py:48 | Each row's share is its demand's percentage of the total, and the shares add up to 100 |
| Abc.AnalysisCumulative | abc_productos.py:49-50 | Each row's cumulative share is the sum of the shares up to it, and its category is the bin of that value |
| Abc.AnalysisAt | abc_productos.py:45-50 | Row i holds the i-th ranked article and its demand. With a zero total it has no share, cumulative share or category. Otherwise its share, cumulative share and category are the i-th entries of the share, cumsum and bin columns |
| Abc.RankedValues | abc_productos.py:45 | The ranked demands are non-negative and non-increasing when the demands are non-negative |
| Abc.CumulativeShape | abc_productos.py:49-50 | For non-negative demands with a positive total, the cumulative share is in (0,100], non-decreasing, ends at 100, and every row gets a category |
| Abc.CategoriesMonotone | abc_productos.py:45-50 | Along the ranking categories never go back; a class-A row has only class-A rows before it |
| Abc.NoClassAWhenTopExceeds80 | abc_productos.py:45-50 | When the top article alone has more than 80%, no article is in class A |
| Abc.ClassA | abc_productos.py:69 | The class-A list has one entry per A-tagged row |
| Abc.ClassAIsLeadingBlock | abc_productos.py:69 | When the A rows form a prefix, the class-A list is the articles of that prefix, in ranking order |
| Abc.ClassAOfAnalysis | sales_abc.py:14-24 | For non-negative demands with a positive total, the class-A list is exactly the leading class-A block of the ranking; no later row is in class A |
| SalesAbc.DemandItem | abc_productos.py:43 | A sale's measured demand is quantity × unit price; a missing quantity adds nothing to the per-article sum |
| SalesAbc.DemandItems | abc_productos.py:43 | One measured demand per sale |
| SalesAbc.ArticleDemand | sales_abc.py:12-13 | One entry per sold article, exactly the articles of the sales, each holding the article's total measured demand, summed sale by sale |
| SalesAbc.AbcAnalysis | sales_abc.py:12-17 | One analysis row per sold article |
| SalesAbc.SumForDemandOf | sales_abc.py:12-13 | An article's grouped total is the sum of quantity × unit price over its rows |
| SalesAbc.SortKeys | sales_abc.py:14 | Sorting keeps the set of articles and their distinctness |
| SalesAbc.ArticlesRanked | sales_abc.py:14 | The analysis lists the articles in sorted order |
| SalesAbc.ArticlesOfAnalysis | sales_abc.py:13-14 | Every sold article appears exactly once in the analysis, and nothing else does |
| SalesAbc.AbcAnalysisDemands | sales_abc.py:12-17 | Each article appears once, exactly the sold articles appear, and each row's demand is that article's total of quantity × unit price |
| SalesAbc.PositiveDemands | sales_abc.py:12-13 | Cleaned sales (positive quantities and prices) give non-negative totals with a positive sum |
| SalesAbc.GroupOfPositive | sales_abc.py:13 | Grouping positive values gives non-negative totals with a positive sum |
| SalesAbc.PositiveShape | sales_abc.py:14-24 | For such totals the cumulative share ends at 100, and the class-A list is the leading class-A block of the ranking |
| SalesAbc.CleanSalesClassification | sales_abc.py:12-24 | For a non-empty set of cleaned sales, the cumulative share ends at 100, and the saved class-A list is the leading class-A block of the ranking, in ranking order |
| SalesAbc.EarlyShareRows | sales_time_series.py:67-74 | The time-series variant, which computes the shares before sorting, gives one row per article |
| SalesAbc.ClassADistinct | sales_time_series.py:76-77 | The class-A filter keeps only articles of the rows, and keeps them distinct when the rows' articles are |
| SalesAbc.TimeSeriesClassA | sales_time_series.py:64-77 | The `unique` class-A list of the time-series script names no article twice |
| SalesAbc.SharesOfItems | sales_time_series.py:68 | The shares computed before the sort are the percentages of the unsorted totals |
| SalesAbc.SharesAfterRanking | sales_time_series.py:68-70 | Sorting the totals together with their shares gives the shares of the sorted totals |
| SalesAbc.EarlySharesAreAnalysis | sales_time_series.py:66-74 | Computing the shares before the sort gives exactly the rows of the sort-then-share analysis |
| SalesAbc.TimeSeriesClassAIsClassA | sales_time_series.py:64-77 | The time-series script's class-A list equals the class-A list of the other two scripts |
| SalesCleaning.Sanitize | utils.py:19 | Every kept character is a digit, ',', '.' or '-', and every such character of the input is kept |
| SalesCleaning.SanitizeKeepsAllowedInOrder | utils.py:19 | The sanitised price is a subsequence of the input holding all its allowed characters, and sanitising twice equals sanitising once |
| SalesCleaning.SanitizeDecorated | sales_cleaner.py:14 | A price surrounded by characters that are not allowed sanitises to the price |
| SalesCleaning.CommaToPoint | utils.py:22 | Same length, every ',' becomes '.', every other character is kept |
| SalesCleaning.CommaToPointAlphabet | utils.py:19-22 | After the replacement no ',' is left, and a sanitised price holds only digits, '.' and '-' |
| SalesCleaning.ParseUnsigned | utils.py:22 | An unsigned decimal parses to a non-negative number |
| SalesCleaning.ParseFloat | utils.py:22 | A string without a leading '-' parses, if at all, to a non-negative number |
| SalesCleaning.MalformedPricesRejected | utils.py:22 | "", "-", ".", "1.2.3" and "1-2" do not convert to float |
| SalesCleaning.ParseDecimal | utils.py:22 | "ip.fp" parses to the decimal value of its digits, and "-ip.fp" to its negation |
| SalesCleaning.ParseNegated | utils.py:22 | A leading '-' negates the value of the rest, or fails with it |
| SalesCleaning.ParseInteger | utils.py:22 | A digit string parses to its value, and with a leading '-' to its negation |
| SalesCleaning.ShowNatValue | utils.py:22 | The decimal rendering of a natural number has that value |
| SalesCleaning.ParseShowNat | utils.py:22 | Round trip: the decimal rendering of n (optionally negated) parses back to n (or −n) |
| SalesCleaning.PriceWithDecoration | sales_cleaner.py:14-15 | A price written with a decimal comma and surrounded by disallowed characters converts to its decimal value |
| SalesCleaning.ParsePrice | utils.py:19-22 | Only a raw price holding a minus sign can convert to a negative number |
| SalesCleaning.DecimalComma | sales_cleaner.py:15 | "ip,fp" keeps all its characters when sanitised and becomes "ip.fp" |
| SalesCleaning.ConvertAll | utils.py:22 | A column conversion succeeds exactly when every value converts; otherwise it raises a ValueError. On success every row holds its converted value |
| SalesCleaning.PriceColumn | utils.py:19-22 | The price column converts exactly when every sanitised price parses; otherwise ValueError; on success every row holds its parsed price |
| SalesCleaning.Convert | utils.py:19-23 | The converted rows keep article and date, hold the coerced quantity (missing when non-numeric) and the parsed price; the whole conversion fails exactly when a price is malformed |
| SalesCleaning.LoadAndCleanData | sales_cleaner.py:13-19 | The cleaning fails exactly when the conversion does, with a ValueError |
| SalesCleaning.CleanKeepsPositiveRows | utils.py:23-29 | The kept rows are the converted rows with positive quantity and price, in their original order; rows with a missing quantity are dropped, and no positive row is lost |
| SalesCleaning.Positive | utils.py:29 | A row that passes the positive-quantity-and-price filter has a positive measured demand |
| SalesCleaning.MeasuredDemand | sales_time_series.py:17 | MeasuredDemand is quantity × unit price, missing exactly when the quantity is |
| SalesCleaning.LoadAndPrepareData | sales_time_series.py:6-19 | The preparation fails exactly when the conversion does. Otherwise every row is kept, without a positivity filter, together with its measured demand |
| IngredientTable.DropEmptyColumns | ingredient_cleaner.py:17 | Exactly the columns holding a value survive the drop, in their original order, as many as there are such columns |
| IngredientTable.Reshape | ingredient_cleaner.py:29-35 | A successful reshaping gives one row per product, each with one cell per ingredient label |
| IngredientTable.ReshapeIsTransposition | abc_ingredientes.py:16-32 | Succeeds exactly when 25 columns hold a value. It fails with an index error when none does and with a length mismatch otherwise. On success the rows are the 24 listed names in order, the columns are the first column's labels, and cell (p, i) is cell i of the (p + 1)-th kept column |
| IngredientTable.FillCell | abc_ingredientes.py:35 | A filled cell is never missing, and a present value is unchanged |
| IngredientTable.FillColumns | ingredient_cleaner.py:38-39 | Column by column, every missing cell becomes 0 and every other cell is kept |
| IngredientTable.CleanIngredientData | ingredient_cleaner.py:14-39 | Succeeds exactly when 25 columns hold a value, failing as the reshaping does. On success: the 24 product rows; no missing cell; missing cells become 0; present cells keep the transposed value |
| IngredientAbc.RowTotals | ingredients_abc.py:18 | Each ingredient's Total_Quantity is the sum of its row |
| IngredientAbc.IngredientAnalysis | ingredients_abc.py:18-29 | The ingredient analysis has one row per ingredient |
| IngredientAbc.IngredientAnalysisIsAnalysis | ingredients_abc.py:21-29 | Each row, with cumulative percentage cumsum / total × 100, equals the shared ABC analysis of the row totals |
| IngredientAbc.IngredientRanking | ingredients_abc.py:21 | The totals are non-increasing along the sorted order |
| IngredientAbc.IngredientCumulativeShape | ingredients_abc.py:24-25 | For non-negative totals with a positive sum, the cumulative percentage is in (0,100], non-decreasing and ends at 100 |
| IngredientAbc.IngredientCategoriesMonotone | abc_ingredientes.py:66 | Every row gets a category, categories never go back along the sorted order, and the A rows form a prefix |
| IngredientAbc.Lookup | abc_ingredientes.py:98 | Aligning by label finds a value exactly for the labels present |
| IngredientAbc.LookupGroupSum | abc_ingredientes.py:95 | A product's grouped total exists exactly when it was sold, and is then the sum of its quantities |
| IngredientAbc.TotalIngredients | abc_ingredientes.py:98 | One required amount per ingredient column |
| IngredientAbc.SumForFilter | ingredients_abc.py:49 | Filtering out the sales of other articles leaves a kept article's total unchanged |
| IngredientAbc.InRecipes | ingredients_abc.py:48-49 | `isin` keeps a subsequence of the sales: every sale of a recipe product and no other |
| IngredientAbc.Weighted | ingredients_abc.py:52-55 | If none of the recipe products sold, the weighted column sum is zero |
| IngredientAbc.TotalOfProduct | ingredients_abc.py:48-52 | A recipe product's total among the filtered sales is its total over all sales |
| IngredientAbc.TotalOfGroupSum | abc_ingredientes.py:95 | The grouped total of a product is the sum of its quantities, and 0 when it did not sell |
| IngredientAbc.WeightedIsRequired | ingredients_abc.py:55 | The aligned multiplication followed by the column sum equals Σ over recipe products of (quantity sold) × (recipe amount) |
| IngredientAbc.TotalIngredientsIsRequired | abc_ingredientes.py:91-98 | Each required amount is Σ over recipe products of (quantity sold) × (recipe amount) |
| IngredientAbc.RequiredSnoc | abc_ingredientes.py:95-98 | One more sale adds its quantity times its article's recipe amount |
| IngredientAbc.RecipeAmountMissing | abc_ingredientes.py:91-92 | An article without a recipe row has recipe amount 0 |
| IngredientAbc.RequiredIsPerSale | abc_ingredientes.py:95-98 | The per-product formula equals the sum, over the individual sales, of quantity × recipe amount |
| IngredientAbc.RequiredNoSales | abc_ingredientes.py:95-98 | Without sales nothing is required |
| IngredientAbc.TotalIngredientsPerSale | abc_ingredientes.py:91-98 | The totals equal the per-sale sum, and a sale of an article absent from the recipe table changes nothing |
| WeeklySeries.MissingColumn | series_ingredientes.py:52 | Reports a selected name the table lacks, and none exactly when all are present |
| WeeklySeries.SelectIngredients | series_ingredientes.py:52 | Raises a KeyError naming a missing column exactly when a selected name is not in the table. Otherwise every product row keeps its label and holds the selected columns in selection order |
| WeeklySeries.WeekColumn | series_ingredientes.py:55 | Each sale gets the week of its date |
| WeeklySeries.SoldProducts | series_ingredientes.py:61 | The groups are the sold articles, each exactly once |
| WeeklySeries.Weeks | series_ingredientes.py:58 | The table's rows are the weeks of the sales, each exactly once |
| WeeklySeries.WeeksOfArticle | series_ingredientes.py:64 | Every week in which an article sold is among its weeks, and each of them is a sales week |
| WeeklySeries.ProductWeeks | series_ingredientes.py:64 | A product's week groups are its sales weeks, each once, all rows of the table |
| WeeklySeries.QuantityOutsideWeeks | series_ingredientes.py:64-65 | A product sold nothing in a week outside its weeks |
| WeeklySeries.WeekQuantity | series_ingredientes.py:64-65 | A product's quantity in a week is never negative when no sale has a negative quantity |
| WeeklySeries.RecipeRow | series_ingredientes.py:63 | `.loc[product]` gives a recipe row of that product |
| WeeklySeries.ContributionSnoc | series_ingredientes.py:64-66 | One more sale of a product in a week adds its quantity times the recipe amount to that week's cell |
| WeeklySeries.AccumulatedSnocSale | series_ingredientes.py:61-66 | One more sale adds its use to the accumulated cell exactly when it is in that week and its article is iterated |
| WeeklySeries.AccumulatedNoSales | series_ingredientes.py:58-66 | Without sales every cell stays 0 |
| WeeklySeries.AccumulatedIsPerSale | series_ingredientes.py:61-66 | The accumulated cell (week, ingredient) equals Σ over that week's sales of quantity × recipe amount |
| WeeklySeries.AnyProductOrder | series_ingredientes.py:61-66 | The table does not depend on the order in which the products are iterated |
| WeeklySeries.NoRecipeNoUse | series_ingredientes.py:62 | A sale of a product without a recipe row adds nothing |
| WeeklySeries.ExpectedNonNegative | series_ingredientes.py:61-66 | With non-negative quantities and recipe amounts every cell is non-negative |
| WeeklySeries.ContributionOfProduct | series_ingredientes.py:63-66 | A product adds, in each of its weeks, that week's total quantity × its recipe amount, and nothing in other weeks |
| WeeklySeries.AddRow | series_ingredientes.py:66 | `+=` adds quantity × recipe amount to the week's row only; with non-negative values no cell decreases |
| WeeklySeries.AddProduct | series_ingredientes.py:62-66 | Processing one product adds its contribution to every cell and nothing else |
| WeeklySeries.Accumulate | series_ingredientes.py:61-66 | Starting from zero, after all products every cell holds the per-sale reference sum |
| WeeklySeries.WeeklyTable | series_ingredientes.py:58-66 | The table has one zero-initialised row per sales week and ends with every cell the per-sale reference sum |
| WeeklySeries.GenerateWeeklyIngredientSeries | series_ingredientes.py:48-66 | Fails with the missing column's KeyError exactly when a selected ingredient is absent. Otherwise: the sales weeks as rows, the selected ingredients as columns, and each cell the week's Σ of quantity × recipe amount |
| Validation.DropMissing | intercalated_validation.py:24 | `dropna` keeps exactly the present cells, in their order: point i is the i-th present cell with its value unwrapped |
| Validation.FormatWeekInterval | intercalated_validation.py:14-16 | Formatting raises an index error exactly for an empty window |
| Validation.IntervalOfSlice | intercalated_validation.py:14-16 | A non-empty slice formats as "[first date, last date]" |
| Validation.Mean | intercalated_validation.py:49-50 | The mean exists exactly for a non-empty sequence |
| Validation.AbsoluteError | intercalated_validation.py:51 | The error is non-negative and is ± (actual − predicted) |
| Validation.WindowAt | intercalated_validation.py:49-51 | A window's error is defined exactly when the predicted average is, and is then the non-negative absolute value of actual average − predicted average |
| Validation.OffsetNext | intercalated_validation.py:63 | Each step advances the offset by train + test |
| Validation.OffsetMonotone | intercalated_validation.py:63 | Offsets increase with the window number |
| Validation.OffsetIsProduct | intercalated_validation.py:63 | Window k starts at k × (train + test) |
| Validation.CountBounds | intercalated_validation.py:28 | After the last window fewer than train + test points remain |
| Validation.WindowFits | intercalated_validation.py:28 | Every window that is run lies within the series |
| Validation.WindowCount | intercalated_validation.py:28 | The loop stops at the first window that no longer fits |
| Validation.CountIsQuotient | intercalated_validation.py:28 | There are ⌊length / (train + test)⌋ windows |
| Validation.Validation | intercalated_validation.py:25-63 | Fails with an index error exactly when a window fits but train or test is 0. Otherwise there is one result per fitting window |
| Validation.ValidateWindow | intercalated_validation.py:30-60 | One loop body: an index error exactly when train or test is 0, otherwise the window's result |
| Validation.IntercalatedValidation | intercalated_validation.py:25-63 | The while loop returns the specified sequence of window results |
| Validation.LoopStep | intercalated_validation.py:28-63 | One iteration keeps the loop invariant: the offset is the window count × (train + test) |
| Validation.LoopExit | intercalated_validation.py:28 | When the loop stops, its results are the specification |
| Validation.WindowBounds | intercalated_validation.py:28-31 | Window k starts at k × (train + test), fits in the series, and its result is computed at that offset |
| Validation.WindowAtContents | intercalated_validation.py:30-60 | The train slice [s, s+train) and the test slice [s+train, s+train+test) are adjacent. The intervals name their first and last dates, the actual average is the test points' mean, the predicted average is the mean of a `test`-step forecast made from the training values, and the error is the absolute difference of the two averages |
| Validation.ForecastSeesOnlyTraining | intercalated_validation.py:30-51 | Two series that agree on a window's training values get the same predicted average there, whatever their test values; with equal actual averages they also get the same error |
| Validation.Windows | intercalated_validation.py:30-31 | One window per iteration |
| Validation.WindowsCover | intercalated_validation.py:28-31 | The windows, in order, tile the start of the series without overlap or gap |
| Validation.TrailingPointsUnused | intercalated_validation.py:28 | The windows cover exactly the first count × (train + test) points; the fewer-than-a-window points after them are never used |
| Validation.ValidateColumns | intercalated_validation.py:23-25 | Every column is validated on its present points; the run fails exactly when some column's validation fails |

## Left out

- SARIMAX fitting, its forecast, and the forecast-model helpers: a library numeric routine, taken as the parameter `forecast`.
- `np.random.normal`: the samples are an input.
- Reading and writing CSV and text files, `os.makedirs`, printing, plotting, and the "output file already exists, return it" shortcuts: these are I/O.
- Calendar bucketing: the week of a date is the parameter `weekOf`.
  - `pd.to_datetime` is not modelled; dates are carried as read.
  - `create_time_series` is left out, because it depends entirely on pandas frequency semantics.
- Binary floating point. Everything is `real`, so effects are not modelled such as a float cumsum ending just above 100 and so falling outside every bin.
- Python's full `float()` grammar (exponents, `inf`, `nan`, surrounding spaces) and Unicode digits matched by `\d`: the price parser accepts optional '-', digits and at most one '.', which is what the sanitised alphabet leaves.
- The drivers `main.py`, `main_series.py` and `main_ingredient.py`, and the context script `series_productos.py`. `series_productos.py` is not part of this model.
- `volumen_maximo` and `monto_maximo`: no code reads them.
- The grouped mean and standard deviation of the CTE by season and ingredient: a pandas aggregation over floats.
- Inventory.ComputePolicy: `math.sqrt` is the parameter `sqrt`. The lemmas that need its value require `SqrtSpec(sqrt)` (non-negative, and squaring back to a non-negative argument).
- CostModel.Cte: requires q ≠ 0; numpy's division by zero, which yields `inf` rather than raising, is not modelled.
- SensitivityQ.GridLoop: requires every season's ingredients to have cost data and a season-1 lot size; the KeyError the script raises otherwise is not modelled.
- SensitivityD.GenerarResultados: requires every ingredient to have cost data and a lot size in every set, and one sample list of the given length per (season, ingredient); the KeyError otherwise is not modelled.
- SensitivitySampling.SamplingLoop: requires the statistics table to have every column read and every listed ingredient to have cost data; the KeyError otherwise is not modelled.
- Abc.SortDesc: a stable descending insertion sort. pandas' `sort_values` (quicksort) promises no order for equal demands. When two articles tie, the model and pandas may rank them differently. The cumulative share, and so the category, depends on that order: which of two tied articles gets the lower category, and so appears in the class-A list, can differ from pandas.
- Abc.GroupSum: groups appear in order of first appearance, not in pandas' sorted key order. The sort that follows removes the difference except between tied totals. There, as under Abc.SortDesc, which tied article gets the lower category can differ from pandas.
- IngredientTable.CleanIngredientData: the table as read is required to be rectangular, as any data frame is. Duplicate labels are not modelled, and nor is the dtype of the zero-filled label column.
- SalesCleaning.Convert: a price that is not a string, for which `re.sub` raises a TypeError, is not modelled; prices are strings.
- Validation.Validation: `train_weeks` and `test_weeks` are natural numbers; negative window sizes are not modelled.
- Validation.WindowAt: SARIMAX's own failures are not modelled. An empty forecast gives a missing (NaN) predicted mean and error.
