# Trade dashboard core in Dafny

A model of the data-to-chart layer of the Finnish foreign-trade dashboard
(`app.py`, a Dash application). The dashboard loads a JSON snapshot of
pre-aggregated views and draws them. Each chart is drawn by one callback,
which turns the records of its view into a plotly figure. The model keeps
what those callbacks compute and leaves out how plotly draws it:

- `fmt_ru`, the formatter that writes an amount given in billions of USD
  as Russian text ("1 234.5 млрд USD", "250.0 млн USD"). The digits are
  modelled too: rounding to tenths, ties to even, and thousands grouped
  with spaces. A reader `Shown` takes such a string back to a number.
- The label shortening `x[:n] + "..." if len(x) > n else x`, for n = 35
  and n = 25.
- The per-view arithmetic:
  - conversion to billions and millions;
  - sector shares in percent;
  - the filter that drops the unknown region;
  - the Russia balance fallback X − M;
  - the bar colour by balance sign;
  - the lookup of Germany's record, with precomputed figures or figures
    derived from X and M.
- Every callback, as a pure function from the snapshot to a figure
  descriptor: traces with keys, plotted values, written text, hover text
  and colours; an empty-state placeholder; or the error the callback
  raises.

Modules:

- `Basics`: Option, Result and the failures a callback can raise.
- `NumberFormat`: `fmt_ru`, the `.1f` percentage text and the reader.
- `Labels`: truncation.
- `Records`: the snapshot and its row types, with pandas' column rules.
- `Aggregate`: sums, shares, the region filter, the balance rules and the
  key-partner lookup.
- `Charts`: the figure descriptors and the callbacks.

A record field that some records may lack is an `Option`. A frame built
from the records has that column when at least one record carries it; a
record without it then holds NaN. A frame built from no records has no
columns at all. The callbacks without an empty-check therefore fail on an
empty view with pandas' `KeyError` on the first column they read. The
model returns this as `Err(MissingColumn(...))`.

Three behaviours of app.py a reader might expect otherwise, kept as
written:

- A zero sector total gives NaN shares, not 0 %.
- `fmt_ru` writes no "+" sign for positive amounts.
- The growth views plot `delta` as stored, with no conversion.

The key-partner block is computed while app.py loads, before the app
exists (app.py:28-85). A snapshot for which that block fails stops the
program, so no chart is drawn. `Dashboard.Start` models this, and
"## Findings" records it. `Dashboard.Render` builds every part of the page
on its own, and the callbacks are modelled that way.

## Model

| member | source | states |
|---|---|---|
| NumberFormat.FmtRu | app.py:13-21 | NaN gives the empty string; a number gives a non-empty string that starts with "-" exactly when it is negative |
| NumberFormat.FmtRuUnit | app.py:16-21 | the text ends with " млрд USD" exactly when the absolute value is at least 1, and with " млн USD" exactly when it is below 1 |
| NumberFormat.ShownFmtRu | app.py:13-21 | reading the text back gives the amount in billions, with its sign, to within half of the last digit shown: 0.05 billion in the billions tier, 0.05 million in the millions tier |
| NumberFormat.FmtRuUnsigned | app.py:17 | an amount of zero or more is written with no sign |
| NumberFormat.ZeroIsMillions | app.py:16-21 | zero is written "0.0 млн USD" |
| NumberFormat.FmtRuHundred | app.py:18-19 | 100 billion is written "100.0 млрд USD" |
| NumberFormat.FmtRuTwenty | app.py:18-19 | 20 billion is written "20.0 млрд USD" |
| NumberFormat.FmtRuQuarter | app.py:17-21 | −0.25 billion is written "-250.0 млн USD": the magnitude is multiplied by 1000 in the millions tier |
| NumberFormat.AmountUnit | app.py:18-21 | the text of a non-negative amount ends with " млрд USD" exactly when it is at least 1, and with " млн USD" exactly when it is below 1 |
| NumberFormat.Tenths | app.py:19 | the rounded count of tenths lies within half a tenth of the value |
| NumberFormat.GroupedValue | app.py:19 | a numeral grouped by three with spaces (`,` format, commas replaced) denotes the number it was made from |
| NumberFormat.OneDecimalValue | app.py:19 | a one-decimal numeral reads back exactly as its count of tenths divided by 10 |
| NumberFormat.PercentText | app.py:413 | `f"{v:.1f}%"` ends with "%" and starts with "-" exactly when v is negative |
| NumberFormat.ShownPercent | app.py:413 | the numeral before "%" reads back as v to within 0.05 |
| Labels.Truncate | app.py:273 | a name within the budget is kept; a longer one becomes its first n characters followed by "...", n + 3 characters in all |
| Labels.TruncateIdempotent | app.py:273 | shortening a shortened label changes nothing |
| Labels.TruncateCollision | app.py:358 | two names get the same label exactly when they are equal or are both too long and share their first n characters |
| Labels.TruncateKeeps | app.py:605 | a name is shown unchanged exactly when it fits the budget or is already n characters followed by "..." |
| Aggregate.Divided | app.py:350-351 | each converted value times the unit gives the raw value back |
| Aggregate.Shares | app.py:354-355 | a zero total gives NaN everywhere; otherwise each share times the total is the value times 100 |
| Aggregate.SumDivided | app.py:350-353 | the total of converted values is the raw total converted |
| Aggregate.SharesUnitFree | app.py:350-355 | shares of values converted to any positive unit equal the shares of the raw values |
| Aggregate.SharesTotal | app.py:354-355 | the shares of a non-zero total add up to 100 |
| Aggregate.SharesBounded | app.py:354-355 | with non-negative values and a positive total each share lies between 0 and 100 |
| Aggregate.DonutShares | app.py:354-355 | with non-negative values and a positive total the shares add up to 100, each lies in [0, 100] and is proportional to its value |
| Aggregate.Known | app.py:399 | a region is kept exactly when it is a record whose `world_part` is not "Неизвестно" |
| Aggregate.KnownAppend | app.py:399 | the filter keeps record order: filtering a concatenation concatenates the filtered parts |
| Aggregate.RussiaBalance | app.py:518 | the stored `balance` (NaN where a record lacks it) when the frame has that column, X − M for every record otherwise |
| Aggregate.RussiaBalanceConsistent | app.py:518 | when every record's balance is X − M, the two branches agree |
| Aggregate.BalanceColor | app.py:460 | green exactly for a balance of at least zero; red for a deficit and for NaN |
| Aggregate.FirstIndex | app.py:29 | the position of the first record of the country, or none when no record has that name |
| Aggregate.GetOr | app.py:30-32 | the record's cell when the frame has the column, the fallback otherwise |
| Aggregate.KeyPartnerFigures | app.py:28-32 | an empty frame fails on `country_name`; the lookup succeeds exactly when Germany has a record, otherwise fails with no row; the figures are those of Germany's first record |
| Aggregate.KeyFiguresDerivable | app.py:30-32 | when Germany's record carries every precomputed column the frame has and agrees with X and M, the figures are (X+M)/10^9, X/10^9 and M/10^9 |
| Aggregate.KeyFiguresMissingCell | app.py:30-32 | a column that another record carries but Germany's lacks yields NaN, not the derived figure |
| Charts.EmptyState | app.py:495-513 | the placeholder has no trace, one annotation centred on the paper, hidden axes, and the given message |
| Charts.FormattedRescaled | app.py:531 | formatting values plotted in one unit with a factor gives the same labels as formatting the amounts converted first: only the product is written |
| Charts.LabelReadsAs | app.py:209 | one `fmt_ru` label reads back as the plotted value times the factor, NaN as the empty string |
| Charts.LabelledReadsBack | app.py:209 | labels made by `fmt_ru` read back as the plotted values, NaN as the empty string |
| Charts.TradeDynamicsFigure | app.py:191-261 | no records fail on `year` and no `balance` column fails on `balance`; otherwise three lines by year, X, M and balance in billions, the balance on the second axis, each hover `fmt_ru` of the plotted value |
| Charts.FlowRecovers | app.py:194-195 | each plotted export or import value times its unit (10^9 here, 10^6 for Russia) is the record's X or M |
| Charts.TradeDynamicsExample | app.py:191-234 | X of 100 and 120 billion against M of 80 and 70 plot as 100.0 and 120.0 with balances 20.0 and 50.0, and hover "100.0 млрд USD" and "20.0 млрд USD" |
| Charts.NamedBars | app.py:276-283 | one horizontal bar per name: shortened name on the axis, `fmt_ru` of the value on the bar, full name on hover |
| Charts.CommoditiesFigure | app.py:268-339 | no records fail on `primaryValue`; otherwise one bar per record, the value in billions, names cut at 35 characters |
| Charts.SectorsFigure | app.py:346-388 | no records fail on `X`; otherwise two donuts over the sectors, labelled with names cut at 25 characters, showing the export and import shares of the values in billions |
| Charts.SectorDonuts | app.py:350-376 | each donut shows the shares of the raw X or M, whatever the unit |
| Charts.GeographyFigure | app.py:395-444 | no records fail on `world_part`; otherwise one export and one import column trace over the known regions |
| Charts.RegionShares | app.py:400-401 | each drawn value divided by 100 is the region's stored export or import share |
| Charts.RegionBars | app.py:400-428 | one column per known region: the share times 100 drawn, its `.1f` percentage written, `fmt_ru` of the amount in billions on hover |
| Charts.GeographyRegions | app.py:399-428 | both traces have exactly the regions other than "Неизвестно" as columns, and every such record has a column |
| Charts.TopCountriesFigure | app.py:451-485 | succeeds exactly when Germany has a record and the frame has both `turnover_bln` and `balance_bln`; fails with the key-partner lookup's error, then on a missing `turnover_bln`, then on a missing `balance_bln`; otherwise one column per partner with its turnover, `fmt_ru` of it as text and hover, and the balance colour |
| Charts.RussiaFigure | app.py:492-572 | no records give the placeholder; otherwise three lines by year, X, M and balance in millions, each hover `fmt_ru` of the plotted value divided by 1000 |
| Charts.RussiaHoverInBillions | app.py:516-555 | each Russia hover string is `fmt_ru` of the raw amount divided by 10^9, and reads back as the plotted value divided by 1000 |
| Charts.StructureFigure | app.py:579-632 | no records give the placeholder; otherwise one bar per record, the change in billions, names cut at 25 characters |
| Charts.GrowthFigure | app.py:639-748 | no records give the placeholder with the side's message; otherwise one bar per record, `delta` drawn as stored, names cut at 35 characters |
| Charts.BarLabelsReadBack | app.py:280 | the text on every bar reads back as the drawn amount |
| Charts.UpdateTradeDynamics | app.py:192 | a snapshot without the view fails on its key; otherwise the figure of its records |
| Charts.UpdateTopCommodities | app.py:269 | a snapshot without the view fails on its key; otherwise the figure of its records |
| Charts.UpdateEconomicSectors | app.py:347 | a snapshot without the view fails on its key; otherwise the figure of its records |
| Charts.UpdateTradeGeography | app.py:396 | a snapshot without the view fails on its key; otherwise the figure of its records |
| Charts.UpdateTopCountries | app.py:452 | a snapshot without the view fails on its key; otherwise the figure of its records |
| Charts.UpdateRussiaTrade | app.py:493 | a snapshot without the view fails on its key; otherwise the chart or the placeholder, never an error |
| Charts.UpdateStructureChanges | app.py:580 | a snapshot without the view fails on its key; otherwise the chart or the placeholder |
| Charts.UpdateTopGrowth | app.py:640 | a snapshot without the view fails on its key; otherwise the chart or the placeholder |
| Charts.KeyPartnerPanel | app.py:60-85 | a snapshot without the view fails on its key; with the view, the panel succeeds exactly when the Germany lookup does and otherwise fails with the lookup's failure; a successful panel is `fmt_ru` of the turnover, exports and imports of Germany's first record |
| Charts.DerivedPanelReadsBack | app.py:69-85 | the panel of figures derived from X and M reads back as X + M, X and M in billions |
| Dashboard.Start | app.py:28-32 | the program starts exactly when the key-partner block succeeds, fails with that block's failure otherwise, and then shows the page of every callback |
| Dashboard.MissingKeyPartnerStopsStart | app.py:28-32 | a snapshot with a complete trade dynamics view and an empty partner view does not start, although its trade dynamics chart could be drawn |
| Dashboard.RenderIsolated | app.py:191-748 | changing the partner view leaves every chart other than the key-partner block and the partner chart unchanged |
| Charts.KeyPartnerPanelReadsBack | app.py:61-85 | when Germany's record carries every precomputed column and agrees with X and M, the panel reads back as X + M, X and M in billions |

## Left out

- The Dash layout and the callback wiring with dummy inputs (app.py:88-184), and the server start (app.py:750-752): user interface and web plumbing.
- Reading `dashboard_data.json` (app.py:24-25) is file I/O; the snapshot is a parameter.
- Plotly presentation: heights, fonts, margins, grid colours, hover templates, line and marker colours. Only the balance colour rule is modelled.
- Binary floating point. Amounts are exact reals, and the `.1f` rounding is modelled as ties-to-even on the exact value. Python rounds the nearest double, so a decimal tie that is not exactly representable can round the other way.
- Infinite values. A non-zero value over a zero sector total gives ±inf in pandas; the model gives NaN for every share of a zero total.
- A JSON `null` is not told apart from an absent key: both are a missing field.
- Records missing a mandatory field are not modelled: every record carries `year`, `X`, `M`, its name, `primaryValue`, `change`, `delta`, `export_share` and `import_share`. In app.py a region record missing a share would be drawn as NaN with the text "nan%" (app.py:400-401, 413), and a frame where no record has it would raise `KeyError`.
- The module-level Germany lookup is written out three times in app.py (app.py:28-32, 54-59, 61-66) and the panel twice; the model has it once.
- `update_top_countries` computes Germany's export and import figures and never uses them (app.py:455-456). The model keeps the lookup only for its failures.
- The choice of which records reach a view (top N, growth deltas, declining groups) happens before the snapshot is written, so app.py only reads the results.
- Charts.SectorDonuts: states that the donuts show the shares of the raw measures; that the shares add up to 100 and lie in [0, 100] is stated by Aggregate.DonutShares.

## Findings

| source | as written | input that shows it | evidently intended | confidence | as-written member | corrected member |
|---|---|---|---|---|---|---|
| app.py:28-32 | the key-partner lookup runs while the module loads, so a missing, empty or Germany-less partner view raises before any callback exists | `{"trade_dynamics": [one year with balance], "top_partner_countries": []}`: the lookup fails on `country_name`, and the complete trade dynamics chart is never drawn | a failing key-partner block leaves the other charts drawn | medium, not executed | Dashboard.MissingKeyPartnerStopsStart | Dashboard.RenderIsolated |
