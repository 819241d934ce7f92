# rapor — a Dafny model of the reporting core

`rapor` is an Express dashboard over a sales-detail table (`YC_SATIS_DETAY`).
Almost all of its computation is SQL that the handlers build and send to the
database. This project models the parts with precise semantics as pure
functions over in-memory rows and strings, and proves properties about them:

- **Profitability and cost attribution** (`sales.dfy`, `reports.dfy`):
  - the three stages of the `KARLILIK_HESAPLAMA_CTE`:
    - the quantity-weighted average cost per (date, customer, product code);
    - the largest positive cost per product code as a fallback;
    - `COALESCE(NULLIF(average, 0), fallback, 0)`;
  - the standing base filter, evaluated in SQL's three-valued logic;
  - "current name per product code" (`ROW_NUMBER() ... ORDER BY TARIH DESC`);
  - the revenue and profit sums;
  - the date-period shortcuts;
  - the sales-rep summary, product profitability and its KPI block, and the monthly trend;
  - the 12-month padding;
  - the bought/potential partitions of the two potential reports.
- **The NLU-to-action bridge** (`action.dfy`):
  - `normYil`, `normKanal` and `normUrun`;
  - the channel restriction on receipt types (`kanalFisClause`);
  - the channel bucketing `CASE`;
  - the six report queries as structured filters;
  - the dispatch outcome.
- **The dynamic query builder** (`dynquery.dfy`):
  - `buildDynamicQuery`, modelled as a fold that threads the parameter counter;
  - `getDateRangeFromEntity`.
- **The `/parse` handler** (`nlu.dfy`):
  - the blank-text and confidence guards;
  - `fallbackExtract`, with JavaScript's case-insensitive, non-unicode `\b(...)\b` matching;
  - the slot merge and normalisation.

Supporting modules:

- `wrappers.dfy` holds `Option`, which also stands for SQL NULL.
- `text.dfy` holds the JavaScript string behaviour the handlers rely on:
  - `toUpperCase` and `toLowerCase` on ASCII and Turkish letters;
  - regular-expression Canonicalize;
  - `includes`, `trim` and decimal spellings;
  - the leftmost `(19|20)\d{2}` match.
- `calendar.dfy` holds calendar dates, including the normalisation done by `new Date(y, m, d)`.

Money and quantities are exact `real`s. Every table column is an `Option`. A
SQL `WHERE` keeps a row only when its condition is TRUE, so comparing NULL
with `<>` drops the row. NULL never satisfies a join condition.

Three behaviours of the code are easy to misread:

- The KPI margin is computed only when total revenue is positive (`> 0`).
  A negative total revenue gives margin 0.
- Returns are not sign-normalised by receipt type. Quantities and amounts are
  used as stored.
- A product with no positive cost observation does not always get cost 0. Its
  transaction-group average is kept whenever the group's total quantity is
  positive and the average is non-zero. That average can be negative: one row
  with quantity 1 and cost −1 resolves to −1 (`Sales.NegativeCostCanSurvive`).
  It can also be positive: costs −1 and −5 on quantities 2 and −1 resolve to 3
  (`Sales.NegativeCostsCanYieldPositiveCost`). A group whose total quantity is
  not positive averages to 0 and falls through to the fallback or 0.
  `Sales.NoCostEverGivesZero` states the case the code does guarantee: no
  non-zero cost anywhere gives cost 0.

The `\b` of a non-unicode JavaScript pattern is ASCII-only. So the spellings
`rakı` and `likör` are only found when an ASCII word character follows them
(`Nlu.NonAsciiEndingNeedsWordAfter`): "rakı" before a space, a punctuation
mark or the end of the text is not recognised by the fallback.

## Model

| member | source | states |
|---|---|---|
| `Text.Trim` | routes/nlu.js:45-46 | The trimmed text is empty exactly when every character is ECMAScript white space; otherwise it neither starts nor ends with white space. |
| `Text.Contains` | routes/action.js:20-21 | The left-to-right scan of `includes` answers true exactly when the fragment occurs at some index. |
| `Text.FirstYear` | routes/nlu.js:25 | `match(/(19\|20)\d{2}/)` yields nothing exactly when no index starts a match; otherwise it yields the four characters of the leftmost match. |
| `Text.NatToStringRoundTrip` | services/handlers.js:21 | Reading back the decimal spelling of a counter gives the counter. |
| `Text.NatToStringInjective` | services/handlers.js:21 | Distinct counter values have distinct spellings. |
| `Calendar.MakeDate` | index.js:94-103 | `new Date(year, monthIndex, day)` always yields a valid calendar date. The month index is carried into the year, so index −1 is December of the year before. A day within that month gives exactly that date, day 0 gives the previous month's last day, and a day past the month's end moves into the next month. |
| `Calendar.MakeDateCountsDays` | index.js:94-103 | Raising the day argument by one moves the result to the next calendar day, across month and year ends, for days 0 to 30. |
| `Calendar.ThisMonth` | index.js:93-96 | The `bu_ay` construction covers exactly day 1 to the last day of the current month. |
| `Calendar.LastMonth` | index.js:97-100 | The `gecen_ay` construction covers the whole previous month, which is December of the prior year in January. |
| `Calendar.ThisYear` | index.js:101-104 | The `bu_yil` construction covers January 1 to December 31 of the current year. |
| `Sales.InBase` | index.js:63-67 | The three-valued base filter keeps a row exactly when its year is 2024 or 2025 and its name and supplier are non-NULL and differ from 'HİZMET' and 'GENEL HARCAMA'. |
| `Sales.UnitCost` | index.js:29 | `COALESCE(MALIYET, ALISFIYATI, 0)`: a stored cost (even zero) wins, then the purchase price, then 0. |
| `Sales.GroupAverageIsWeightedMean` | index.js:22-34 | With no negative quantities, a group's average cost lies between the smallest and largest cost of its rows that carry quantity. |
| `Sales.FallbackCost` | index.js:35-43 | A code has no fallback exactly when none of its rows has a positive cost; otherwise the fallback is positive, is attained by one of its rows and bounds all of its positive costs. |
| `Sales.TrueUnitCost` | index.js:44-59 | The resolved cost is the group average when the row joins its group and the average is non-zero; otherwise it is the code's fallback or 0; a NULL code always gives 0. |
| `Sales.NoCostEverGivesZero` | index.js:35-59 | A code whose every cost observation in the whole table is missing or zero resolves to cost 0. |
| `Sales.NegativeCostsCanYieldPositiveCost` | index.js:28-31 | A code with no positive cost can still resolve to a positive cost: two rows with costs -1 and -5 and quantities 2 and -1 average to 3. |
| `Sales.NegativeCostCanSurvive` | index.js:28-31 | A group whose only row has quantity 1 and cost −1 keeps the average −1, so the resolved cost is negative. |
| `Sales.Revenue` | index.js:173 | `SUM(TUTAR)` is NULL exactly when every amount is NULL, and is non-negative when every amount is. |
| `Sales.SumsOfWhere` | index.js:173-174 | Summing the rows a WHERE keeps gives the same revenue and profit as summing every row with the rejected rows' terms counted as NULL. |
| `Sales.WhereComposes` | index.js:223-230 | Filtering the rows one condition keeps by a second condition keeps exactly the rows that pass both, in table order. |
| `Sales.ProfitIsRevenueLessCost` | index.js:174 | With amounts and quantities present, profit equals revenue less Σ quantity × resolved cost, using the quantities as stored. |
| `Sales.WorkedExample` | index.js:21-59 | 10 units at cost 5 and 10 units with only a purchase price of 7 average to 6; with revenue 200, the profit is 80. |
| `Sales.LatestRow` | index.js:75-86 | The row numbered 1 for a code carries that code and a date no other row of the code sorts before (NULL dates last); a code without rows has none. |
| `Reports.GetDateRange` | index.js:89-110 | 'bu_ay', 'gecen_ay' and 'bu_yil' give the current month, the previous month and the current year as valid, ordered dates; any other period gives null. |
| `Reports.ResolvePeriod` | index.js:205-211 | A recognised shortcut replaces both manual dates; 'manuel', an unknown shortcut or none leaves them untouched. |
| `Reports.RepPerformance` | index.js:170-184 | Revenue and profit are the ISNULL'd sums over the table rows the year, month, rep, customer and supplier filters select. The customer count is the number of distinct non-NULL customers among those rows. It is at most 1 when a customer is given, and everything is 0 when no row is selected. |
| `Reports.CustomersOfSelection` | index.js:175 | The distinct customers of the filtered rows are exactly the customers of the table rows the filter selects. |
| `Reports.ProductProfitability` | index.js:214-230 | There is one result per product name carried by a selected row and no other. Each entry's revenue and profit are the sums over exactly the selected table rows with that name. Every entry has non-negative revenue, and a name filter leaves at most that name. |
| `Reports.ProductLinesAreGroups` | index.js:217-230 | Grouping the selected rows by `STOK_ADI` sums, for each listed name, exactly the table rows that are selected and carry that name. |
| `Reports.ReduceIsSum` | index.js:243-244 | The `reduce` left folds equal the start value plus the sums of revenue and profit, with a NULL profit adding nothing. |
| `Reports.ComputeKpis` | index.js:235-249 | Totals are the sums over the result rows and the count is the row count; the margin is 100·profit/revenue only when revenue is positive, else 0; an empty result gives all zeros. |
| `Reports.SumsArePermutationInvariant` | index.js:243-244 | The revenue and profit totals are the same for any reordering of the result rows. |
| `Reports.KpisAreOrderIndependent` | index.js:230-249 | The KPI block is the same in whatever order the database returns the rows. |
| `Reports.WorkedExampleMargin` | index.js:240-249 | The worked example's single line, revenue 200 and profit 80, gives totals 200 and 80, one product and a 40% margin. |
| `Reports.MonthlyTrend` | index.js:379-387 | There is one (year, month) group for each month of some row passing the base filter and no other, and every group's year is 2024 or 2025. Each group's revenue and profit are the SQL sums over exactly the base rows of that year and month. |
| `Reports.MonthsAreGroups` | index.js:381-386 | Grouping the base rows by `YIL, AY` sums, for each month, exactly the table rows of that month that pass the base filter. |
| `Reports.FindMonth` | index.js:354 | `find` returns the first row of the month, and returns nothing exactly when no row has that month. |
| `Reports.PadMonths` | index.js:352-360 | The padding yields exactly 12 entries named January to December in order; each takes its month's first row when there is one, and zeros otherwise. |
| `Reports.Partition` | index.js:425-431 | Every element lands in exactly one list, in the bought list exactly when it is in the set, and both lists keep the original order. |
| `Reports.Distinct` | index.js:402 | `SELECT DISTINCT` lists every value of its input exactly once. |
| `Reports.OfferedProducts` | index.js:401-413 | The product list holds, once each, exactly the current names of the rows that pass the base filter, the join and the optional filters. |
| `Reports.ProductPotential` | index.js:399-431 | Without a customer both lists are empty; with one, the offered products are split in order into those the customer bought and the rest. |
| `Reports.ListedCustomers` | index.js:450-454 | The customer list holds, once each, exactly the customers of the rows that pass the base filter and the rep filter. |
| `Reports.CustomerPotential` | index.js:448-475 | Without a product both lists are empty; with one, the buyers list is exactly the product's buyers, and the potential list is the other listed customers, in order. |
| `Action.SlotValue` | routes/action.js:176-178 | `slots?.x \|\| slots?.X` takes the lower-case key when it holds a non-empty string, else the upper-case key, else the empty string. |
| `Action.NormYil` | routes/action.js:14-17 | The result is always "20" plus two digits: the leftmost `20\d{2}` in the slot, or '2025' when there is none. |
| `Action.NormYilIdempotent` | routes/action.js:14-17 | A normalised year normalises to itself. |
| `Action.NormYilIgnoresNineteenHundreds` | routes/action.js:15-16 | "1999" is not recognised and becomes '2025'. |
| `Action.NormalisedYearIsThisCentury` | routes/action.js:14-17 | The year a normalised slot filters on, read as a decimal number, lies between 2000 and 2099. |
| `Action.NormKanal` | routes/action.js:18-23 | The output is always 'toptan', 'online' or 'market': 'toptan' exactly when the lower-cased slot contains "toptan", 'online' exactly when it contains "online" but not "toptan". |
| `Action.NormKanalIdempotent` | routes/action.js:18-23 | A normalised channel normalises to itself. |
| `Action.NormUrun` | routes/action.js:24-34 | The result is null or an allow-listed group, and an upper-cased slot already in the list is kept. Otherwise the first fragment that occurs decides, in the order VISKI or WHIS (WHISKY), VOD (VODKA), GIN, RAK (RAKI), LIK (LIKOR). Null means that none of the fragments occurs. |
| `Action.NormUrunIdempotent` | routes/action.js:26-27 | Normalising a recognised product group returns it unchanged, because the exact allow-list check comes first. |
| `Action.ChannelRestriction` | routes/action.js:35-40 | 'toptan' restricts to receipt types {21, 23}, 'market' to {101, 102} and 'online' to KANAL = 'ONLINE'; every other value is unrestricted. |
| `Action.NormalisedChannelRestricts` | routes/action.js:18-40 | Every output of `normKanal` yields a real restriction. |
| `Action.ChannelBucket` | routes/action.js:112-116 | The bucketing is total into 'toptan', 'market' and 'diger', and gives 'diger' exactly for NULL and for types outside both code sets. |
| `Action.BucketMatchesRestriction` | routes/action.js:36-37 | For 'toptan' and 'market', a row passes the channel restriction exactly when it falls into that bucket. |
| `Action.Total` | routes/action.js:58-91 | The `SUM` of a query is NULL exactly when no selected row carries the measured column. |
| `Action.DistributionAgreesWithChannelTotal` | routes/action.js:109-134 | The wholesale or market line of the channel distribution equals the total of the same query restricted to that channel. |
| `Action.ReportQuery` | routes/action.js:58-165 | A product-group condition is present exactly when a group was named. Every query except the year comparison filters on the slot's year, and the comparison uses {2024, 2025}. Only the distribution drops the channel restriction, and only the revenue query sums TUTAR. Liters and revenue are ungrouped totals; the monthly query groups by month, the comparison by year, and the top query takes the top 5 products. |
| `Action.Dispatch` | routes/action.js:170-240 | A missing or empty intent gives 400 'intent gerekli'. Exactly the six report intents and the help intent succeed, and any other intent gives 400 'Bilinmeyen intent: …'. A report runs the intent's query on the normalised year, channel and product of the slots. It echoes the normalised year (except for the comparison) and channel (except for the distribution), and shows the product as its group or 'TÜM'. |
| `DynamicQuery.ParamNamesDistinct` | services/handlers.js:21 | Different counter values give different placeholder names. |
| `DynamicQuery.DateRangeFromEntity` | services/handlers.js:68-84 | 'bu_ay', 'geçen_ay' and 'bu_yıl' give this month, last month and this year; every other value gives no range. |
| `DynamicQuery.TransactionType` | services/handlers.js:27-28 | The transaction type is the option of the first 'islem_tipi' entity in the whole list, or 'satis' when there is none. |
| `DynamicQuery.ReceiptTypes` | services/handlers.js:30-35 | A market sale maps to [101] and any other market transaction to [102]; a wholesale sale maps to [21] and any other wholesale transaction to [23]; other channels map to nothing. |
| `DynamicQuery.BindFrom` | services/handlers.js:38-41 | Binding adds exactly the names of the fresh placeholders to the parameters. |
| `DynamicQuery.BindFromBinds` | services/handlers.js:40-41 | The i-th value is bound to the placeholder numbered counter + i. |
| `DynamicQuery.EntityClause` | services/handlers.js:19-55 | An entity adds a clause exactly when it is a region, a market or wholesale channel, or a recognised time range. Its placeholders are the next consecutive numbers. A region binds its option, a channel binds its receipt-type codes as integers in order, and a time range binds the range's first and last day. |
| `DynamicQuery.RegionEntityBindsItsValue` | services/handlers.js:20-24 | A region entity appends `BOLGE = @pk` for the next number k and binds its option to pk. |
| `DynamicQuery.ChannelEntityBindsItsCodes` | services/handlers.js:26-42 | A channel entity appends `FIS_TURU IN (…)` over one fresh number per receipt type, and binds the i-th fresh placeholder to the i-th code. |
| `DynamicQuery.DateEntityBindsItsRange` | services/handlers.js:44-53 | A time entity appends `TARIH BETWEEN @pk AND @pk+1` and binds pk to the range's first day and pk+1 to its last. |
| `DynamicQuery.FoldKeepsConsecutive` | services/handlers.js:11-56 | After any number of entities, the clauses use 1, 2, …, counter − 1 in order without gaps, and the parameter names are exactly those placeholders. |
| `DynamicQuery.Render` | services/handlers.js:58-62 | The text starts with the base query and ends with " ORDER BY TARIH DESC". It is longer than those two exactly when there are clauses, and then " WHERE " follows the base query. |
| `DynamicQuery.RenderOne` | services/handlers.js:58-62 | One clause gives the base query, " WHERE ", that clause's text and the ordering. |
| `DynamicQuery.RenderAppend` | services/handlers.js:58-62 | Each further clause's text is inserted after " AND ", just before the ordering, so the clauses appear in order. |
| `DynamicQuery.JoinAppend` | services/handlers.js:60 | Joining one more part appends the separator and that part. |
| `DynamicQuery.BuildDynamicQuery` | services/handlers.js:7-65 | No entities give exactly "SELECT TOP 1000 * FROM Satislar" and no parameters; otherwise the text renders the fold's clauses and the parameters are exactly its consecutive placeholders. |
| `DynamicQuery.TextDependsOnlyOnShape` | services/handlers.js:19-62 | Two entity lists of the same shape produce the same SQL text whatever their option values, so values only ever reach the parameters. |
| `Nlu.AnyAlternativeAt` | routes/nlu.js:28 | Trying the alternatives in order at one position succeeds exactly when some alternative matches there as a whole word. |
| `Nlu.Test` | routes/nlu.js:28-37 | The left-to-right scan of `regex.test` answers true exactly when some alternative matches as a whole word at some position. |
| `Nlu.NonAsciiEndingNeedsWordAfter` | routes/nlu.js:29-32 | A spelling ending in 'ı' or 'ö' matches only when an ASCII word character follows it. |
| `Nlu.ProductOf` | routes/nlu.js:27-32 | The product is WHISKY, RAKI, VODKA, GIN or LIKOR by the stated precedence over their spellings, and null when no spelling matches. |
| `Nlu.ChannelOf` | routes/nlu.js:34-37 | The channel of the lower-cased text is 'toptan', 'market' or 'online' by the stated precedence, and null when no word matches. |
| `Nlu.FallbackExtract` | routes/nlu.js:21-40 | The year is the leftmost `(19\|20)\d{2}`; the product is read from the text and the channel from its lower case. |
| `Nlu.FallbackValuesAreNormal` | routes/nlu.js:27-37 | The fallback's product and channel pass `normUrun` and `normKanal` of the action route unchanged. |
| `Nlu.RequestText` | routes/nlu.js:45 | The text is the body's non-empty text, else the query's, else empty. |
| `Nlu.Confidence` | routes/nlu.js:49 | Without a truthy intent the confidence is 0; with one it is the NLU's score. |
| `Nlu.EntitySlots` | routes/nlu.js:65-68 | There is a slot for exactly the entity names the NLU reported. |
| `Nlu.LastEntityWins` | routes/nlu.js:66-68 | A slot holds the text of the last entity of its name. |
| `Nlu.FillEmpty` | routes/nlu.js:72-74 | A fallback value fills only an empty slot, never overrides a filled one, and leaves other slots alone. |
| `Nlu.Normalise` | routes/nlu.js:77-79 | yil becomes its leftmost `(19\|20)\d{2}` or disappears; kanal is lower-cased; urun is upper-cased; nothing else changes. |
| `Nlu.Parse` | routes/nlu.js:42-84 | Blank text gives 400 'text required'; confidence below 0.45 gives the fallback intent with its two suggestions; otherwise the intent is the NLU's non-empty intent with the merged slots. |
| `Nlu.NluSlotsWin` | routes/nlu.js:71-79 | A slot the NLU filled keeps the NLU's own text, normalised, whatever fallback values are offered. |
| `Nlu.FallbackFillsEmptySlots` | routes/nlu.js:71-79 | An empty channel or product slot takes a non-empty fallback value, normalised (the fallback's values are never empty, by `Nlu.FallbackValuesAreNormal`). |
| `Nlu.ParsedYearIsAYear` | routes/nlu.js:77 | Every non-empty year slot of a confident parse is four characters starting with 19 or 20. |

## Left out

- The database pool and its configuration (`db.js`, the pool setup in `index.js`): queries are modelled as predicates and sums over a sequence of rows.
- SQL execution order: `ORDER BY` of result sets is not modelled. The KPI block is proved independent of row order, and `SELECT DISTINCT` is modelled in order of first appearance.
- `TOP 5` of the top-products query and its `ORDER BY Litre DESC` are not modelled. The query records the grouping and the limit only.
- Express routing, `res.render`, `res.json` and the views: only the returned data and the status or error outcome are modelled.
- The query results inside the action responses (`toplam`, `aylik`, `dagilim`, `yillar`, `top`) and the `sonuc` sentence are not modelled, and neither is the `|| 0` default on an empty sum. The sentence needs `toLocaleString('tr-TR')`.
- The current time: `now` is a parameter. The `toISOString` conversion of the range ends is left out, because a time zone can shift the printed date by a day. Ranges are calendar dates.
- IEEE floating point: money and quantities are exact reals.
- The concurrent dropdown fetches (`getFilterData`, `Promise.all`).
- The other report routes (rep comparison, churn, ABC, risk and the like), `routes/test_query.js` and `nlu/train.js`: they are outside this model.
- The NLP library (`dockStart`, `nlp.process`): its result is an input of `Nlu.Parse`.
- Request and slot values are strings. JSON numbers, objects and `undefined` option values are not modelled, and neither is `String(...)` of them.
- Case mapping covers ASCII and the Turkish letters ç ğ ı ö ş ü and Ç Ğ İ Ö Ş Ü. Other non-ASCII letters are left as they are.
- `Action.Total`: the `|| 0` that turns an empty or NULL sum into 0 in the response is not applied.
- `Reports.ProductProfitability`: the result is keyed by product name. The `ORDER BY ToplamKar DESC` order is not modelled.
- String comparison: the model compares strings exactly. SQL Server's `=`, `<>` and `GROUP BY` ignore trailing spaces, and under a case-insensitive collation they ignore case too. So filters, joins and groups here can separate values that the database treats as equal.
- `Sales.LatestRow`: among rows with equal latest dates, the database may number any of them 1. The model picks the first in table order.
