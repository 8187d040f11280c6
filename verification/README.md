# Yolande Stock: ledger, catalog and analytics core in Dafny

Yolande Stock is a stock-keeping web application for small shops. It keeps a
catalog of products with a stock quantity and a ledger of entries, each of
which is either a purchase (`achat`) or a sale (`vente`). Its hooks write the
ledger and the catalog, resolve the user's organization, and derive statistics,
per-product performance and alerts. Its pages add client-side validation,
previews and classifications on top.

This project models that core as immutable datatypes and pure transition
functions. The hosted store (Supabase) is an in-memory `Store` of products and
ledger entries. Each call the hooks make to the store takes its outcome from an
oracle parameter: success, failure, or the row it returns. The clock and the
calendar windows (month, day, preset ranges) are parameters as well. The
invariant carried through every write is that each product's stock equals its
purchased quantity minus its sold quantity in the ledger, and is nonnegative
(`Inventory.Consistent`).

Modules, one per source unit:

- `Seqs`: generic filter, sum and prefix, with their lemmas.
- `Js`: JavaScript helpers: `Math.round`, rounding to two decimals, `trim`, the `...` shortening.
- `Digits`: the digit-only input sanitiser and `parseInt` on its output.
- `Inventory`: products, ledger entries and the stock invariant.
- `Ledger`: `addTransaction`.
- `Catalog`: `addProduct` and `deleteProduct`.
- `Analytics`: the analytics hook.
- `Tenant`: the organization hook.
- `Statistics`: the statistics hook.
- `AddProductPage`, `TransactionsPage`, `DashboardPage` and `HistoryPage`: the pages.
- `ProductAnalysisView` and `AlertsPanelView`: the components.

Behaviour notes:

- The transactions page previews a total that falls back to the per-bottle
  price when the per-unit price is 0. It uses `||`, while `addTransaction`
  uses `??` and records 0. `TransactionsPage.TotalMatchesLedger` proves that
  the two agree otherwise, and `TransactionsPage.ZeroUnitPriceShowsBottlePrice`
  exhibits the difference. The dashboard's stock value and price column use
  `||` too (`DashboardPage.StockValueAtLedgerPrices`).
- `addTransaction` inserts the ledger entry before it updates the stock, with
  no rollback. A failed update therefore leaves the invariant broken for that
  product (`Ledger.UpdateFailureKeepsEntry`).
- `addProduct` also returns true when its initial purchase entry could not be
  written. That product's stock is then not backed by the ledger
  (`Catalog.WarningPathKeepsProduct`).

## Model

| member | source | states |
|---|---|---|
| Js.Round | src/hooks/useTransactions.tsx:106 | `Math.round` lands within half a unit of its argument |
| Js.Trim | src/hooks/useProducts.tsx:80 | the result is the input with a run of leading and a run of trailing white space removed, and has no blank at either end |
| Js.TrimBlank | src/hooks/useProducts.tsx:80 | a name trims to empty exactly when it is all blanks |
| Digits.Sanitize | src/pages/AddProduct.tsx:242 | the sanitised text holds digits only and is no longer than the typed text |
| Digits.SanitizeExact | src/pages/AddProduct.tsx:242 | a character survives exactly when it is a digit; a digit string is left as it is |
| Digits.SanitizeIdempotent | src/pages/Transactions.tsx:193 | sanitising twice is sanitising once |
| Digits.ParseInt | src/pages/AddProduct.tsx:70 | on text with no leading blank or sign, `parseInt` gives NaN exactly when the text does not start with a digit |
| Digits.ParseSanitized | src/pages/AddProduct.tsx:121-125 | on sanitised text, `parseInt` is NaN only for the empty string and otherwise reads the whole number |
| Digits.ParseExamples | src/pages/AddProduct.tsx:70 | "007" reads 7, "12a3" reads 12, "" and "a1" read NaN |
| Inventory.FindProduct | src/hooks/useTransactions.tsx:88-101 | the lookup is empty exactly when no product has the id, else it returns a listed product with that id |
| Inventory.NetIsPurchasedMinusSold | src/hooks/useTransactions.tsx:114-116 | a product's ledger net is its purchased quantity minus its sold quantity |
| Inventory.DisplayPriceVersusDefault | src/pages/Transactions.tsx:95 | the `||` price equals the `??` price unless the per-unit price is stored as 0 and the bottle price is not 0 |
| Ledger.ResolvePrice | src/hooks/useTransactions.tsx:106 | the rounded explicit price, else the stored per-unit price, else the rounded bottle price, for either kind |
| Ledger.AddTransaction | src/hooks/useTransactions.tsx:67-177 | skipped exactly with no user, no organization or a call in flight, writing nothing; `isSubmitting` is false again on every other path; only success and a failed stock update append one entry; only success changes products; each outcome holds exactly under its condition: invalid data for an empty id or quantity ≤ 0, not found when the fetch fails or the id is unknown, insufficient stock for a sale above the stock, then insert failure, update failure, and recorded exactly when a valid, found and (for a sale) covered request meets no store failure |
| Ledger.RejectsInvalidRequest | src/hooks/useTransactions.tsx:83-101 | an empty product id, a quantity ≤ 0 or an unknown product fails with no write |
| Ledger.NoOversell | src/hooks/useTransactions.tsx:109-111 | a sale above the stock fails naming the available stock and writes nothing |
| Ledger.SellWholeStock | src/hooks/useTransactions.tsx:109-116 | a sale of exactly the stock succeeds and leaves stock 0 |
| Ledger.RecordedEffect | src/hooks/useTransactions.tsx:106-147 | on success, one entry with the resolved price and total price × quantity is appended, the target's stock moves by +q or −q, and every other product is unchanged |
| Ledger.PreservesConsistency | src/hooks/useTransactions.tsx:109-147 | stock = net of the ledger and stock ≥ 0 hold after every outcome except a failed stock update |
| Ledger.UpdateFailureKeepsEntry | src/hooks/useTransactions.tsx:121-147 | a failed stock update returns false, keeps the new entry and leaves the stock differing from the ledger net |
| Catalog.CostPerUnit | src/hooks/useProducts.tsx:92 | the per-unit cost is within half a unit of price / units, and absent exactly when units is 0 |
| Catalog.LabelOrDefault | src/hooks/useProducts.tsx:106 | the stored unit label is the trimmed label, or 'unité' when blank, never empty |
| Catalog.ThresholdOrDefault | src/hooks/useProducts.tsx:111 | a zero alert threshold becomes 10; any other is kept |
| Catalog.AddProduct | src/hooks/useProducts.tsx:59-179 | skipped exactly on the guard; invalid exactly when the name is blank or a quantity or price is ≤ 0; true exactly when the product row comes back; the new product goes first; the initial entry is written unless its insert fails, and then it is exactly `InitialEntry` appended to the ledger; the warning flag is set exactly when that insert fails |
| Catalog.PackageConversion | src/hooks/useProducts.tsx:85-92 | stock = quantity × units, with units from the package size in package mode and 1 in unit mode; cost = round(price / units) |
| Catalog.UnitsPerPackage | src/hooks/useProducts.tsx:85-87 | 1 in unit mode; in package mode the units per package, else the bottles per case, else 1 |
| Catalog.InitialEntry | src/hooks/useProducts.tsx:127-140 | a purchase of the product in its organization that adds exactly its new stock, at its per-unit cost, for a total of rounded price × quantity |
| Catalog.FivePackagesOfTwelve | src/hooks/useProducts.tsx:85-92 | 5 packages of 12 at 1200 give stock 60 and cost 100 |
| Catalog.StoredDefaults | src/hooks/useProducts.tsx:102-111 | the stored name is trimmed; the label, threshold and both selling prices get their defaults |
| Catalog.InitialEntryBacksStock | src/hooks/useProducts.tsx:130-140 | the initial purchase entry carries the whole new stock, so stock equals the net of the ledger right after creation |
| Catalog.AddProductPreservesConsistency | src/hooks/useProducts.tsx:97-167 | with a fresh id and a nonnegative package size, the stock invariant survives every outcome except the warning path |
| Catalog.WarningPathKeepsProduct | src/hooks/useProducts.tsx:142-150 | a failed initial entry still returns true and keeps the product, whose stock is then not backed by the ledger |
| Catalog.NegativePackageSizeGivesNegativeStock | src/hooks/useProducts.tsx:85-89 | the hook does not check the package size: a size of −6 creates a product with stock −12 |
| Catalog.InitialTotalIsPackagePrice | src/hooks/useProducts.tsx:128 | the initial entry's total is round(package price) × package count, which can differ from cost × stock (1000 versus 999) |
| Catalog.DeleteProduct | src/hooks/useProducts.tsx:181-208 | single-flight; removes exactly the rows with the id and keeps the others; never touches the ledger |
| Catalog.DeletePreservesConsistency | src/hooks/useProducts.tsx:181-191 | deleting a product keeps the stock invariant for the remaining products |
| Analytics.TransactionsForPeriod | src/hooks/useAnalytics.tsx:95-100 | every kept entry lies in the window, both ends included; a window that starts after it ends keeps nothing |
| Analytics.PeriodFilterInOrder | src/hooks/useAnalytics.tsx:95-100 | the kept entries are exactly those with start ≤ created_at ≤ end, at increasing original positions |
| Analytics.GetPeriodStats | src/hooks/useAnalytics.tsx:103-126 | revenue sums the period's sales, expenses its purchases, profit is their difference, the count is the period's size, the quantities sold and bought sum the period's sale and purchase quantities, and the margin is profit / revenue × 100 rounded to two decimals, or 0 without revenue |
| Analytics.PeriodStatsPartition | src/hooks/useAnalytics.tsx:106-122 | sales and purchases split the period: totals, quantities and counts add up |
| Analytics.MarginExample | src/hooks/useAnalytics.tsx:112-121 | revenue 100000 and expenses 60000 give a 40.00 margin |
| Analytics.MarginAtMostHundred | src/hooks/useAnalytics.tsx:112-121 | nonnegative expenses keep the margin at most 100 |
| Analytics.PerformanceOf | src/hooks/useAnalytics.tsx:130-152 | a product's row carries its name, sums its all-time sales, averages revenue over quantity, rotates sold / stock rounded to two decimals (0 without stock), and flags low stock exactly at stock ≤ threshold |
| Analytics.RotationExamples | src/hooks/useAnalytics.tsx:140-148 | 30 sold over a stock of 10 rotate 3; a stock of 0 rotates 0 |
| Analytics.AverageOfNoSales | src/hooks/useAnalytics.tsx:135-137 | a product without sales has sold 0, revenue 0 and average price 0 |
| Analytics.SortByRevenue | src/hooks/useAnalytics.tsx:153 | the sort yields a permutation ordered by non-increasing revenue |
| Analytics.SortIsStable | src/hooks/useAnalytics.tsx:153 | rows of equal revenue keep their catalog order |
| Analytics.ProductPerformance | src/hooks/useAnalytics.tsx:129-154 | one row per product, sorted by revenue, a permutation of the per-product rows |
| Analytics.LowStockAlerts | src/hooks/useAnalytics.tsx:161-175 | one alert per low product, in catalog order; severity high exactly at stock 0, else medium |
| Analytics.LowStockAlertIff | src/hooks/useAnalytics.tsx:161-175 | a product has its alert exactly when stock ≤ threshold |
| Analytics.LowStockBoundary | src/hooks/useAnalytics.tsx:162-166 | at threshold 10, stock 10 gives medium, stock 0 high, stock 11 none |
| Analytics.RevenueDropBoundary | src/hooks/useAnalytics.tsx:181 | 79000 against 100000 fires the revenue-drop rule; 80000 does not |
| Analytics.CeilDiv30 | src/hooks/useAnalytics.tsx:194 | the divisor is the least multiple count of 30 covering the entry count |
| Analytics.Alerts | src/hooks/useAnalytics.tsx:157-207 | low-stock alerts first, then a revenue-drop alert when its rule fires, then an expense-anomaly alert when its rule fires |
| Analytics.RulesAreIndependent | src/hooks/useAnalytics.tsx:178-204 | each period rule's alert is present exactly when that rule fires, whatever the catalog |
| Analytics.ChartData | src/hooks/useAnalytics.tsx:210-245 | 12 monthly and 30 daily points, each the period statistics of its bucket |
| Analytics.SeriesAddsUp | src/hooks/useAnalytics.tsx:210-245 | over contiguous buckets, the points' revenues and expenses add up to the statistics of the whole span |
| Tenant.AttemptOutcome | src/hooks/useOrganization.tsx:44-103 | a store error on the membership or the organization fetch is transient; a missing row is final; a failed member list degrades to [] |
| Tenant.FirstSettled | src/hooks/useOrganization.tsx:41-113 | the first non-transient attempt among the three, or none when all three are transient |
| Tenant.FetchOrganization | src/hooks/useOrganization.tsx:31-125 | at most 3 attempts with waits of 500·attempt before attempts 2 and 3; a missing row clears organization and members; success sets both; exhaustion notifies and keeps the state; loading ends false |
| Tenant.ExhaustedBackoff | src/hooks/useOrganization.tsx:107-110 | three failures wait 500 then 1000 ms, 1500 in total |
| Tenant.BackoffTotal | src/hooks/useOrganization.tsx:107-110 | n waits of 500·attempt total 250·n·(n+1) ms |
| Tenant.CurrentUserRole | src/hooks/useOrganization.tsx:206-210 | a role exactly when a user is given and a member has that user id, and then the first such member's role |
| Tenant.CanManage | src/hooks/useOrganization.tsx:212-215 | true exactly when the first member row of the user is an owner or an admin |
| Tenant.IsOwner | src/hooks/useOrganization.tsx:217-219 | true exactly when the first member row of the user is an owner |
| Tenant.RoleHelpers | src/hooks/useOrganization.tsx:212-219 | an owner can manage; a plain member cannot; with no matching member nobody can manage or own |
| Tenant.FirstRowWins | src/hooks/useOrganization.tsx:208 | with two rows for the user, the first row's role is used |
| Tenant.CheckLimits | src/hooks/useOrganization.tsx:222-234 | no organization gives both flags false and no limits; otherwise both are true and the limits echo the organization |
| Tenant.RemoveMember | src/hooks/useOrganization.tsx:178-204 | true exactly with an organization and a successful delete; then exactly the members with that id are gone, otherwise the list is unchanged |
| Tenant.RemoveMemberKeepsOrder | src/hooks/useOrganization.tsx:189 | the kept members are the others at increasing original positions |
| Statistics.GetStats | src/hooks/useStatistics.tsx:10-34 | counts every product, at most that many are low, and total revenue sums the sales only |
| Statistics.LowStockCountMatchesAlerts | src/hooks/useStatistics.tsx:13 | the low-stock counter equals the number of low-stock alerts and counts exactly the products with stock ≤ threshold |
| Statistics.MonthlyRevenueIsPeriodRevenue | src/hooks/useStatistics.tsx:20-32 | the monthly revenue is the analytics revenue of the month's window |
| Statistics.MonthlyAtMostTotal | src/hooks/useStatistics.tsx:15-32 | with nonnegative totals, the monthly revenue is at most the total revenue |
| Statistics.TotalStockIsNet | src/hooks/useStatistics.tsx:12 | under the stock invariant, the total stock is the sum of the products' ledger nets and is nonnegative |
| Statistics.ChartFeeds | src/hooks/useStatistics.tsx:36-77 | with no entries, both feeds are empty; otherwise [Achats, Ventes], whose counts are the numbers of purchases and of sales and add up to the entries, and whose amounts add up to the ledger total, plus the first ≤ 5 products |
| Statistics.BarLabel | src/hooks/useStatistics.tsx:69 | a name over 10 characters becomes its first 10 plus '...' |
| AddProductPage.Edit | src/pages/AddProduct.tsx:242-329 | numeric fields store the sanitised text; the other fields are unchanged; a sanitised form stays sanitised |
| AddProductPage.SetMode | src/pages/AddProduct.tsx:211-213 | picking a mode changes only the mode, so a sanitised form stays sanitised |
| AddProductPage.ReachableFormsAreSanitized | src/pages/AddProduct.tsx:15-24 | any sequence of typing into fields and picking modes, from the blank form, leaves every numeric field digits-only |
| AddProductPage.ReplayMode | src/pages/AddProduct.tsx:15-24 | the form is in the mode picked last, whatever is typed after it, or in package mode when none was picked |
| AddProductPage.ReplayModeFrom | src/pages/AddProduct.tsx:211-213 | a pick followed by no other pick decides the mode |
| AddProductPage.Payload | src/pages/AddProduct.tsx:62-96 | no call exactly for a blank name, a quantity ≤ 0, a package size ≤ 0 in package mode, or a price ≤ 0; otherwise the parsed quantity and prices, and the parsed package size as both package fields in package mode and neither in unit mode |
| AddProductPage.PayloadIsValid | src/pages/AddProduct.tsx:66-96 | every request the form sends passes the hook's validation with a positive unit count, threshold and stock |
| AddProductPage.ThresholdDefault | src/pages/AddProduct.tsx:95 | a blank or zero threshold is sent as 10; any other as typed |
| AddProductPage.CalculatedInfo | src/pages/AddProduct.tsx:113-134 | a preview exactly when none of quantity, package size and price is focused, the mode is package, and all three read positive; it shows quantity × package size and the rounded price per unit |
| AddProductPage.PreviewMatchesCreatedProduct | src/pages/AddProduct.tsx:129-133 | the previewed total and per-unit price are the stock and cost of the product the hook creates |
| AddProductPage.PreviewedFormSubmits | src/pages/AddProduct.tsx:66-96 | a previewed form with a name and a selling price reaches the hook |
| AddProductPage.HandleSubmit | src/pages/AddProduct.tsx:62-110 | once `onSubmit` fires, the hook is called exactly when the payload exists; the form is reset only after a true result |
| AddProductPage.Press | src/pages/AddProduct.tsx:175-316 | with the browser's `required` checks first, the hook is called exactly when the payload exists and the unit label is not empty; the form is reset only after a true result |
| AddProductPage.ResetOnlyOnSuccess | src/pages/AddProduct.tsx:98-109 | a filled form is reset exactly when the hook returns true |
| AddProductPage.SubmitPreservesConsistency | src/pages/AddProduct.tsx:86-96 | submitting through the form keeps the stock invariant, except on the warning path |
| TransactionsPage.EditQuantity | src/pages/Transactions.tsx:193 | the quantity field stores the sanitised text and nothing else changes |
| TransactionsPage.EditPrice | src/pages/Transactions.tsx:221 | the price field stores the sanitised text and nothing else changes |
| TransactionsPage.ReachableTxnFormsAreSanitized | src/pages/Transactions.tsx:19-24 | any sequence of picks, typing and resets from the blank form leaves both number fields digits-only |
| TransactionsPage.Request | src/pages/Transactions.tsx:65-70 | the quantity read from the field (0 when empty), and a price exactly when its field is not empty |
| TransactionsPage.HandleSubmit | src/pages/Transactions.tsx:62-81 | calls the hook with the request and resets the form exactly on a true result |
| TransactionsPage.Press | src/pages/Transactions.tsx:142-266 | the hook is called exactly when the button is enabled and the browser accepts the required quantity and, for a purchase, the required price; a purchase is sent with its typed price |
| TransactionsPage.EnabledSubmitReachesHook | src/pages/Transactions.tsx:200-266 | an enabled button on a form the browser accepts reaches the hook, a purchase carries its typed price, and the hook refuses as invalid exactly a zero quantity |
| TransactionsPage.SubmitEnabled | src/pages/Transactions.tsx:266 | an enabled button on a sanitised form has a quantity that `parseInt` reads |
| TransactionsPage.CalculatedTotal | src/pages/Transactions.tsx:86-101 | 0 while a number field is focused, with no product or no positive quantity; otherwise quantity × the rounded typed price, or × the rounded catalog price (`||`) when none is typed |
| TransactionsPage.TotalMatchesLedger | src/pages/Transactions.tsx:86-101 | the previewed total is the total the ledger records, unless the catalog's per-unit price is 0 |
| TransactionsPage.ZeroUnitPriceShowsBottlePrice | src/pages/Transactions.tsx:95 | with per-unit price 0 and bottle price 500, two units preview 1000 and are recorded at 0 |
| TransactionsPage.ResetOnlyOnSuccess | src/pages/Transactions.tsx:72-80 | a filled form is reset exactly when the hook returns true |
| DashboardPage.LowStockProducts | src/pages/Dashboard.tsx:20-22 | only products at or under their threshold are listed |
| DashboardPage.LowStockListAgrees | src/pages/Dashboard.tsx:20-22 | a product is listed exactly when stock ≤ threshold; the count equals the statistics counter and the alert count |
| DashboardPage.TotalStockAgrees | src/pages/Dashboard.tsx:24-26 | the stock card equals the statistics total and, under the invariant, the sum of ledger nets, which is nonnegative |
| DashboardPage.ValueAtCongruent | src/pages/Dashboard.tsx:28-30 | pricings that agree on every product give the same stock value |
| DashboardPage.StockValueAtLedgerPrices | src/pages/Dashboard.tsx:28-30 | the stock value uses the ledger's prices when no per-unit price is stored as 0 |
| DashboardPage.TotalStock | src/pages/Dashboard.tsx:24-26 | nonnegative stocks give a nonnegative total |
| DashboardPage.ValueAtNonneg | src/pages/Dashboard.tsx:28-30 | nonnegative stocks and prices give a nonnegative value |
| DashboardPage.StockValue | src/pages/Dashboard.tsx:28-30 | with nonnegative stocks and displayed prices, the stock value is nonnegative |
| DashboardPage.PriceLabel | src/pages/Dashboard.tsx:176 | the price column shows the per-unit price, or the rounded bottle price when that is missing or 0 |
| DashboardPage.StatusOf | src/pages/Dashboard.tsx:178-186 | "Stock bas" exactly at stock ≤ t, "Attention" exactly at t < stock ≤ 2t, "Normal" otherwise |
| DashboardPage.BadgeMatchesLowList | src/pages/Dashboard.tsx:20-22 | a product reads "Stock bas" exactly when it is in the low-stock card |
| DashboardPage.BadgeMonotone | src/pages/Dashboard.tsx:178-186 | more stock never gives a worse badge |
| DashboardPage.NegativeThresholdSkipsAttention | src/pages/Dashboard.tsx:178-186 | a negative threshold has no "Attention" band |
| DashboardPage.HandleDelete | src/pages/Dashboard.tsx:14-18 | nothing happens without confirmation; the ledger is never touched; a confirmed delete removes the product |
| DashboardPage.DeleteLeavesLowList | src/pages/Dashboard.tsx:14-22 | after a delete, the deleted product leaves the low-stock card and every other low product stays |
| ProductAnalysisView.AlertCountMatchesAlerts | src/components/ProductAnalysis.tsx:98 | the alert card counts exactly as many rows as the engine raises low-stock alerts |
| ProductAnalysisView.SalesCount | src/components/ProductAnalysis.tsx:71 | at most the rows, and 0 exactly when no row has a sale |
| ProductAnalysisView.AlertCount | src/components/ProductAnalysis.tsx:98 | at most the rows, and 0 exactly when no row is flagged low |
| ProductAnalysisView.BestSellerName | src/components/ProductAnalysis.tsx:83 | the first row's name, or 'Aucun'; never empty |
| ProductAnalysisView.BestSellerIsTop | src/components/ProductAnalysis.tsx:86 | no product earns more than the best-seller card shows |
| ProductAnalysisView.BestSellerRevenue | src/components/ProductAnalysis.tsx:86 | 0 with no rows, otherwise some row's revenue, and on revenue-sorted rows no row's revenue is higher |
| ProductAnalysisView.TopProductsChart | src/components/ProductAnalysis.tsx:18-24 | min(5, n) bars carrying the first rows' revenue and sales, names at most 18 characters |
| ProductAnalysisView.TopBarLabel | src/components/ProductAnalysis.tsx:21 | a name over 15 characters becomes its first 15 plus '...' |
| ProductAnalysisView.Slices | src/components/ProductAnalysis.tsx:27-33 | one pie slice per row, in order, carrying that row's name and revenue |
| ProductAnalysisView.TopChartShowsBest | src/components/ProductAnalysis.tsx:18-24 | every product left out earns no more than every product shown |
| ProductAnalysisView.RevenueChartData | src/components/ProductAnalysis.tsx:27-48 | the first ≤ 6 rows, then 'Autres' with the rest's revenue exactly when there are more than 6 rows and that revenue is positive |
| ProductAnalysisView.PieCoversRevenue | src/components/ProductAnalysis.tsx:27-48 | with nonnegative revenues the slices sum to the total revenue |
| ProductAnalysisView.RotationBadgeOf | src/components/ProductAnalysis.tsx:50-55 | "Excellente" exactly from 3, "Bonne" exactly from 1.5 below 3, "Correcte" exactly from 0.5 below 1.5, "Faible" exactly under 0.5 |
| ProductAnalysisView.RotationBadgeMonotone | src/components/ProductAnalysis.tsx:50-55 | a faster rotation never earns a lower badge |
| ProductAnalysisView.EmptyStockRatesWeak | src/components/ProductAnalysis.tsx:207 | a product without stock is rated "Faible" |
| ProductAnalysisView.StockPercentage | src/components/ProductAnalysis.tsx:208 | the gauge never exceeds 100; a zero threshold fills it exactly for a positive stock |
| ProductAnalysisView.GaugeScale | src/components/ProductAnalysis.tsx:208 | for a positive threshold the gauge is 0 at no stock, full from twice the threshold, and grows with the stock |
| ProductAnalysisView.RowStatusOf | src/components/ProductAnalysis.tsx:246-252 | "OK" exactly when not low; "Rupture" exactly when low at stock 0 |
| ProductAnalysisView.RowStatusMatchesDashboard | src/components/ProductAnalysis.tsx:246-252 | this status and the dashboard badge agree on which products are low |
| AlertsPanelView.Visible | src/components/AlertsPanel.tsx:16 | no dismissed id is shown |
| AlertsPanelView.VisibleExact | src/components/AlertsPanel.tsx:16 | an alert is shown exactly when its id is not dismissed, in the engine's order |
| AlertsPanelView.Dismiss | src/components/AlertsPanel.tsx:18-20 | dismissing adds the id and forgets no earlier one |
| AlertsPanelView.DismissHidesOne | src/components/AlertsPanel.tsx:16-20 | dismissing hides exactly the alerts with that id |
| AlertsPanelView.DismissIdempotent | src/components/AlertsPanel.tsx:16-20 | dismissing twice is dismissing once, and dismissals commute |
| AlertsPanelView.EmptyStateIff | src/components/AlertsPanel.tsx:74 | the empty state shows exactly when every alert is dismissed |
| AlertsPanelView.CountsAddUp | src/components/AlertsPanel.tsx:185-186 | the high, medium and low counts add up to the visible alerts |
| AlertsPanelView.SeverityCount | src/components/AlertsPanel.tsx:185-186 | at most the visible alerts, and 0 exactly when no visible alert has that severity |
| AlertsPanelView.NoLowSeverityFromEngine | src/components/AlertsPanel.tsx:185-187 | the engine's alerts never give a low count |
| AlertsPanelView.SeverityLabel | src/components/AlertsPanel.tsx:61-72 | "Critique" exactly for high, "Important" exactly for medium, "Information" exactly for low |
| AlertsPanelView.LabelsDistinct | src/components/AlertsPanel.tsx:61-72 | the labels tell the severities apart |
| HistoryPage.SelectedPeriod | src/pages/History.tsx:39-52 | a preset index inside the range gives that window, none outside; a custom period runs from the first day's start to the last day's end |
| HistoryPage.CustomCoversDays | src/pages/History.tsx:42-44 | every entry of either custom day is in the period |
| HistoryPage.FilteredTransactions | src/pages/History.tsx:65-69 | every row matches the search and, under a type filter, has that type |
| HistoryPage.FilterExact | src/pages/History.tsx:65-69 | an entry is listed exactly when its name contains the search and its type passes |
| HistoryPage.FilteredInOrder | src/pages/History.tsx:65-69 | the rows are the matching entries at increasing positions of the period |
| HistoryPage.NoFilterShowsAll | src/pages/History.tsx:66-67 | an empty search with "all" shows the whole period |
| HistoryPage.TypeFiltersPartition | src/pages/History.tsx:67 | purchases and sales under the same search add up to the rows under "all" |
| HistoryPage.ProfitLabel | src/pages/History.tsx:204 | '-' exactly for a negative profit |
| HistoryPage.ProfitLabelRoundTrip | src/pages/History.tsx:71-72 | the sign and the absolute value read back as the profit; 0 reads "+0" |
| HistoryPage.MarginBadgeOf | src/pages/History.tsx:218-222 | "Excellente" exactly from 20, "Faible" exactly under 10 |
| HistoryPage.MarginBadgeOfPeriod | src/pages/History.tsx:218-222 | a period without revenue or with a loss is rated "Faible" |
| HistoryPage.Top3 | src/pages/History.tsx:381 | the first min(3, n) rows |
| HistoryPage.Top3IsBest | src/pages/History.tsx:381 | no product outside the top three earns more than one inside it |

## Left out

- The hosted store, and every refetch after a write (`fetchProducts`, `fetchTransactions`). Store calls are oracle parameters: `TxnReplies`, `ProductReplies`, `AttemptReplies` and the `deleteFails` flags.
- Timing: the minimum-latency waits after a write, the 300 ms debounces of the two forms, and the idle logout timer. The retry loop's sleeps are modelled only as the list of delays it would wait. Debounced values are taken to equal the form.
- Calendar arithmetic: month and day bounds, `startOfWeek` and the preset ranges. Windows and bucket boundaries are integer timestamp parameters, and the clock is the `now` field of the replies. `Statistics.GetStats` takes the current month as a window rather than comparing month and year.
- Text: toast, console and alert messages, the French currency format, and chart colours. `toLowerCase` is a function parameter of `HistoryPage.FilteredTransactions`.
- Floating point: money read by `parseFloat` and stored selling prices are `real`; ratios are `real`; JavaScript rounding is `floor(x + 0.5)`. Infinity is not modelled. A zero package size gives no per-unit cost (`Catalog.CostPerUnit` returns none).
- NaN: `parseInt` is modelled on the leading digits, with NaN as none. Digit-only fields make `parseFloat` agree with it.
- AddProductPage.HandleSubmit and TransactionsPage.HandleSubmit: model `onSubmit` alone. The browser's `required` checks that run before it are modelled by the two `Press` functions.
- TransactionsPage.Request: requires sanitised fields, which every reachable form has (`TransactionsPage.ReachableTxnFormsAreSanitized`). An empty quantity field is sent as 0, where the source sends NaN, which would slip past the hook's `quantity <= 0` test. The submit button is disabled for an empty quantity, so neither reaches the hook through the page (`TransactionsPage.EnabledSubmitReachesHook`).
- ProductAnalysisView.StockPercentage: with a zero threshold and no stock the source computes NaN or −Infinity; the model returns none and states nothing about how the gauge draws it.
- Catalog.AddProductPreservesConsistency: requires a nonnegative package size and a fresh product id, because the hook checks neither (see `Catalog.NegativePackageSizeGivesNegativeStock`).
- Analytics.TransactionsForPeriod: a custom period whose start day is after its end day keeps no transaction, (src/components/DateRangePicker.tsx:66-76, src/pages/History.tsx:42-44, src/hooks/useAnalytics.tsx:98). What `isWithinInterval` does then depends on the date-fns version: version 2 throws a range error, while version 3 and later order the two ends and keep the entries between the two days. The model differs from both. The date picker does not stop such a range.
- Statistics.BarLabel and ProductAnalysisView.TopBarLabel: lengths count Unicode code points, where JavaScript's `length` and `substring` count UTF-16 code units, so names with characters outside the Basic Multilingual Plane are cut at a different place.
- Concurrency: races between sessions on the same stock are out of reach of a sequential model.
- `updateOrganization` and `inviteMember`: no logic beyond one store call, or a stub.
- The exports, and the components and pages that only render: FinancialAnalysis, StockChart, TransactionChart, DateRangePicker, MobileNavigation, LandingPage, Pricing, DashboardMain, App and SystemCheck.
