/** The figures the dashboard's callbacks return, built from the snapshot:
    one function per callback, with the shared descriptor datatypes. */
module Charts {
  import opened Basics
  import opened NumberFormat
  import opened Records
  import opened Aggregate
  import opened Labels

  // ---------------------------------------------------------------------
  // Descriptors

  /** What a point is plotted against: a year, or a category name. */
  datatype Key = Year(year: int) | Name(name: string)

  datatype Kind = Lines | HorizontalBars | Bars | Donut

  /** One trace. Per point: its key (the x of a line or column, the y of a
      horizontal bar, the label of a pie slice), its plotted value, the
      text drawn on it (`text=`) and its hover data (`customdata=`); the
      two string lists are empty when the trace sets neither. `colors` is
      empty when the trace has one colour for every point. */
  datatype Trace = Trace(
    name: string,
    kind: Kind,
    keys: seq<Key>,
    values: seq<Measure>,
    text: seq<string>,
    hover: seq<string>,
    colors: seq<string>,
    secondAxis: bool)

  /** A text placed on the figure, at coordinates relative to the paper
      when `paperRef` holds. */
  datatype Annotation = Annotation(text: string, x: real, y: real, paperRef: bool, showArrow: bool)

  datatype Figure = Figure(title: string, traces: seq<Trace>, annotations: seq<Annotation>, axesVisible: bool)

  /** The placeholder a view shows without records: no trace, one message
      in the middle of the paper, both axes hidden. */
  function EmptyState(title: string, message: string): (f: Figure)
    requires message != []
    ensures IsEmptyState(f) && f.title == title && f.annotations[0].text == message
  {
    Figure(title, [], [Annotation(message, 0.5, 0.5, true, false)], false)
  }

  predicate IsEmptyState(f: Figure) {
    && f.traces == []
    && |f.annotations| == 1
    && !f.axesVisible
    && f.annotations[0] == Annotation(f.annotations[0].text, 0.5, 0.5, true, false)
    && f.annotations[0].text != []
  }

  /** Every series of the trace has one entry per point, `n` points. */
  predicate Points(t: Trace, n: nat) {
    && |t.keys| == n
    && |t.values| == n
    && (t.text == [] || |t.text| == n)
    && (t.hover == [] || |t.hover| == n)
    && (t.colors == [] || |t.colors| == n)
  }

  /** A drawn chart: at least one trace, each of `n` points, axes shown. */
  predicate Chart(f: Figure, n: nat) {
    |f.traces| >= 1 && f.annotations == [] && f.axesVisible
    && forall k :: 0 <= k < |f.traces| ==> Points(f.traces[k], n)
  }

  /** Each label is `fmt_ru` of the plotted value times `k`: the string is
      computed from the very number that is drawn. */
  predicate Labelled(labels: seq<string>, values: seq<Measure>, k: real) {
    |labels| == |values| && forall i :: 0 <= i < |values| ==> labels[i] == FmtRu(Scale(values[i], k))
  }

  /** What a reader sees agrees with what is drawn: a label is empty for a
      missing value and otherwise reads back as the plotted value times `k`
      to within the last displayed digit. */
  predicate ReadsAs(s: string, m: Measure, k: real) {
    && (m.NaN? ==> s == [])
    && (m.Num? ==> Shown(s).Some? && Close(Shown(s).value, m.v * k))
  }

  predicate ReadsBack(labels: seq<string>, values: seq<Measure>, k: real) {
    |labels| == |values| && forall i :: 0 <= i < |values| ==> ReadsAs(labels[i], values[i], k)
  }

  lemma LabelledReadsBack(labels: seq<string>, values: seq<Measure>, k: real)
    requires Labelled(labels, values, k)
    ensures ReadsBack(labels, values, k)
  {
    forall i | 0 <= i < |values|
      ensures ReadsAs(labels[i], values[i], k)
    {
      LabelReadsAs(values[i], k);
    }
  }

  lemma LabelReadsAs(m: Measure, k: real)
    ensures ReadsAs(FmtRu(Scale(m, k)), m, k)
  {
    if m.Num? {
      ShownFmtRu(m.v * k);
    }
  }

  /** `[fmt_ru(val * k) for val in values]`. */
  function Formatted(values: seq<Measure>, k: real): (labels: seq<string>)
    ensures Labelled(labels, values, k)
  {
    seq(|values|, i requires 0 <= i < |values| => FmtRu(Scale(values[i], k)))
  }

  function Div(m: Measure, d: real): (r: Measure)
    requires d != 0.0
    ensures r.NaN? <==> m.NaN?
    ensures r.Num? ==> r.v * d == m.v
  {
    match m
    case NaN => NaN
    case Num(v) => Num(v / d)
  }

  /** Labels of values in one unit equal labels of the same amounts
      converted first: only the product `value * k` is formatted. */
  lemma FormattedRescaled(ws: seq<Measure>, vs: seq<Measure>, k: real)
    requires |ws| == |vs| && forall i :: 0 <= i < |vs| ==> ws[i] == Scale(vs[i], k)
    ensures Formatted(ws, 1.0) == Formatted(vs, k)
  {
    forall i | 0 <= i < |vs|
      ensures Formatted(ws, 1.0)[i] == Formatted(vs, k)[i]
    {
      assert Scale(ws[i], 1.0) == Scale(vs[i], k);
    }
  }

  /** Each text is the percentage of the drawn value: `f"{v:.1f}%"`. */
  predicate Percented(texts: seq<string>, values: seq<Measure>) {
    |texts| == |values| && forall i :: 0 <= i < |values| ==> values[i].Num? && texts[i] == PercentText(values[i].v)
  }

  function PercentTexts(values: seq<Measure>): (texts: seq<string>)
    requires forall i :: 0 <= i < |values| ==> values[i].Num?
    ensures Percented(texts, values)
  {
    seq(|values|, i requires 0 <= i < |values| => PercentText(values[i].v))
  }

  /** Which side of trade a paired chart shows. */
  datatype Direction = Exports | Imports

  // ---------------------------------------------------------------------
  // update_trade_dynamics

  const DynamicsTitle: string := "Динамика экспорта, импорта и торгового сальдо"

  /** A line over `years` whose hover strings are `fmt_ru` of the plotted
      values times `k`. */
  predicate Line(t: Trace, years: seq<Key>, k: real, secondAxis: bool) {
    && t.kind == Lines && t.keys == years && Points(t, |years|)
    && t.secondAxis == secondAxis && Labelled(t.hover, t.values, k)
  }

  function LineTrace(name: string, years: seq<Key>, values: seq<Measure>, k: real, secondAxis: bool): (t: Trace)
    requires |years| == |values|
    ensures Line(t, years, k, secondAxis) && t.values == values
  {
    Trace(name, Lines, years, values, [], Formatted(values, k), [], secondAxis)
  }

  function Years(rows: seq<FlowRow>): (ks: seq<Key>)
    ensures |ks| == |rows| && forall i :: 0 <= i < |rows| ==> ks[i] == Year(rows[i].year)
  {
    seq(|rows|, i requires 0 <= i < |rows| => Year(rows[i].year))
  }

  /** The export (X) or import (M) column divided by `unit`. */
  function Flow(rows: seq<FlowRow>, d: Direction, unit: real): (ms: seq<Measure>)
    requires unit != 0.0
    ensures |ms| == |rows|
    ensures forall i :: 0 <= i < |rows| ==> ms[i] == Num((if d == Exports then rows[i].x else rows[i].m) / unit)
  {
    seq(|rows|, i requires 0 <= i < |rows| => Num((if d == Exports then rows[i].x else rows[i].m) / unit))
  }

  /** No amount is lost in the conversion: each plotted value times the
      unit is the record's X or M. */
  lemma FlowRecovers(rows: seq<FlowRow>, d: Direction, unit: real)
    requires unit != 0.0
    ensures forall i :: 0 <= i < |rows| ==> Flow(rows, d, unit)[i].v * unit == if d == Exports then rows[i].x else rows[i].m
  {
  }

  /** Every cell of a column divided by `unit`, NaN staying NaN. */
  function DivAll(ms: seq<Measure>, unit: real): (r: seq<Measure>)
    requires unit != 0.0
    ensures |r| == |ms| && forall i :: 0 <= i < |ms| ==> r[i] == Div(ms[i], unit)
  {
    seq(|ms|, i requires 0 <= i < |ms| => Div(ms[i], unit))
  }

  /** The stored `balance` column of a frame that has one. */
  function Balances(rows: seq<FlowRow>): (ms: seq<Measure>)
    ensures |ms| == |rows| && forall i :: 0 <= i < |rows| ==> ms[i] == Cell(rows[i].balance)
  {
    seq(|rows|, i requires 0 <= i < |rows| => Cell(rows[i].balance))
  }

  /** Export, import and balance in billions by year, the balance on a
      second axis; each hover string is `fmt_ru` of the plotted value. An
      empty frame lacks the `year` column and a frame whose records carry
      no `balance` lacks that one. */
  function TradeDynamicsFigure(rows: seq<FlowRow>): (r: Result<Figure>)
    ensures rows == [] ==> r == Err(MissingColumn("year"))
    ensures rows != [] && !HasBalance(rows) ==> r == Err(MissingColumn("balance"))
    ensures r.Ok? <==> rows != [] && HasBalance(rows)
    ensures r.Ok? ==> (
      var f := r.value;
      && |f.traces| == 3 && f.annotations == [] && f.axesVisible
      && Line(f.traces[0], Years(rows), 1.0, false)
      && Line(f.traces[1], Years(rows), 1.0, false)
      && Line(f.traces[2], Years(rows), 1.0, true)
      && f.traces[0].values == Flow(rows, Exports, Billion)
      && f.traces[1].values == Flow(rows, Imports, Billion)
      && f.traces[2].values == DivAll(Balances(rows), Billion))
  {
    if rows == [] then Err(MissingColumn("year"))
    else if !HasBalance(rows) then Err(MissingColumn("balance"))
    else
      var years := Years(rows);
      var xs := Flow(rows, Exports, Billion);
      var ms := Flow(rows, Imports, Billion);
      var bs := DivAll(Balances(rows), Billion);
      Ok(Figure(DynamicsTitle,
        [LineTrace("Экспорт", years, xs, 1.0, false),
         LineTrace("Импорт", years, ms, 1.0, false),
         LineTrace("Сальдо", years, bs, 1.0, true)],
        [], true))
  }

  /** Two years of trade: 100 and 120 billion of exports against 80 and 70
      of imports plot as 100.0 and 120.0, with balances 20.0 and 50.0, and
      hover as "100.0 млрд USD" and "20.0 млрд USD". */
  lemma TradeDynamicsExample()
    ensures var rows := [FlowRow(2021, 100.0 * Billion, 80.0 * Billion, Some(20.0 * Billion)),
                         FlowRow(2023, 120.0 * Billion, 70.0 * Billion, Some(50.0 * Billion))];
      var r := TradeDynamicsFigure(rows);
      && r.Ok?
      && r.value.traces[0].values == [Num(100.0), Num(120.0)]
      && r.value.traces[2].values == [Num(20.0), Num(50.0)]
      && r.value.traces[0].hover[0] == "100.0 млрд USD"
      && r.value.traces[2].hover[0] == "20.0 млрд USD"
  {
    var rows := [FlowRow(2021, 100.0 * Billion, 80.0 * Billion, Some(20.0 * Billion)),
                 FlowRow(2023, 120.0 * Billion, 70.0 * Billion, Some(50.0 * Billion))];
    assert HasBalance(rows) by { assert rows[0].balance.Some?; }
    var xs, bs := Flow(rows, Exports, Billion), DivAll(Balances(rows), Billion);
    assert xs == [Num(100.0), Num(120.0)] by {
      assert xs[0] == Num(100.0) && xs[1] == Num(120.0);
    }
    assert bs == [Num(20.0), Num(50.0)] by {
      assert bs[0] == Num(20.0) && bs[1] == Num(50.0);
    }
    var f := TradeDynamicsFigure(rows).value;
    assert f.traces[0].hover[0] == FmtRu(Scale(xs[0], 1.0));
    assert f.traces[2].hover[0] == FmtRu(Scale(bs[0], 1.0));
    FmtRuHundred();
    FmtRuTwenty();
  }

  // ---------------------------------------------------------------------
  // update_top_commodities_export / update_top_commodities_import

  function CommoditiesTitle(d: Direction): string {
    match d
    case Exports => "ТОП-10 товарных групп по экспорту"
    case Imports => "ТОП-10 товарных групп по импорту"
  }

  /** A horizontal bar per record: the shortened name on the axis, the
      value drawn, `fmt_ru` of it written on the bar, the full name on
      hover. */
  function NamedBars(names: seq<string>, values: seq<Measure>, budget: nat): (t: Trace)
    requires |names| == |values|
    ensures RankedBars(t, names, budget) && t.values == values
  {
    var keys := seq(|names|, i requires 0 <= i < |names| => Name(Truncate(names[i], budget)));
    Trace("", HorizontalBars, keys, values, Formatted(values, 1.0), names, [], false)
  }

  /** A horizontal bar trace over `names`: shortened names on the axis,
      `fmt_ru` of the drawn value on each bar, full names on hover. */
  predicate RankedBars(t: Trace, names: seq<string>, budget: nat) {
    && t.kind == HorizontalBars
    && Points(t, |names|) && t.hover == names
    && Labelled(t.text, t.values, 1.0)
    && forall i :: 0 <= i < |names| ==> t.keys[i] == Name(Truncate(names[i], budget))
  }

  /** The name of each record, as `name` reads it: the full names the
      ranked bar charts carry on hover. */
  function Names<R>(rows: seq<R>, name: R -> string): (names: seq<string>)
    ensures |names| == |rows| && forall i :: 0 <= i < |rows| ==> names[i] == name(rows[i])
  {
    seq(|rows|, i requires 0 <= i < |rows| => name(rows[i]))
  }

  function CommodityName(r: CommodityRow): string { r.commodityName }
  function ChangeName(r: ChangeRow): string { r.commodityName }
  function GrowthName(r: GrowthRow): string { r.commodityName }

  /** The ten leading commodity groups as bars in billions. An empty frame
      lacks the `primaryValue` column. */
  function CommoditiesFigure(rows: seq<CommodityRow>, d: Direction): (r: Result<Figure>)
    ensures r.Ok? <==> rows != []
    ensures rows == [] ==> r == Err(MissingColumn("primaryValue"))
    ensures r.Ok? ==> (
      && |r.value.traces| == 1 && Chart(r.value, |rows|)
      && RankedBars(r.value.traces[0], Names(rows, CommodityName), CommodityBudget)
      && forall i :: 0 <= i < |rows| ==> r.value.traces[0].values[i] == Num(rows[i].primaryValue / Billion))
  {
    if rows == [] then Err(MissingColumn("primaryValue"))
    else
      var names := Names(rows, CommodityName);
      var values := seq(|rows|, i requires 0 <= i < |rows| => Num(rows[i].primaryValue / Billion));
      Ok(Figure(CommoditiesTitle(d), [NamedBars(names, values, CommodityBudget)], [], true))
  }

  // ---------------------------------------------------------------------
  // update_economic_sectors

  const SectorsTitle: string := "Распределение экспорта и импорта по секторам"

  /** The sector measure a donut divides: X for exports, M for imports. */
  function SectorMeasure(rows: seq<SectorRow>, d: Direction): (xs: seq<real>)
    ensures |xs| == |rows|
    ensures forall i :: 0 <= i < |rows| ==> xs[i] == if d == Exports then rows[i].x else rows[i].m
  {
    seq(|rows|, i requires 0 <= i < |rows| => if d == Exports then rows[i].x else rows[i].m)
  }

  function SectorKeys(rows: seq<SectorRow>): (ks: seq<Key>)
    ensures |ks| == |rows| && forall i :: 0 <= i < |rows| ==> ks[i] == Name(Truncate(rows[i].sector, SectorBudget))
  {
    seq(|rows|, i requires 0 <= i < |rows| => Name(Truncate(rows[i].sector, SectorBudget)))
  }

  /** Two donuts, the export and the import share of each sector in
      percent, labelled with the shortened sector name. An empty frame
      lacks the `X` column. */
  function SectorsFigure(rows: seq<SectorRow>): (r: Result<Figure>)
    ensures r.Ok? <==> rows != []
    ensures rows == [] ==> r == Err(MissingColumn("X"))
    ensures r.Ok? ==> (
      var f := r.value;
      && |f.traces| == 2 && Chart(f, |rows|)
      && f.traces[0].kind == Donut && f.traces[1].kind == Donut
      && f.traces[0].keys == f.traces[1].keys == SectorKeys(rows)
      && f.traces[0].values == Shares(Divided(SectorMeasure(rows, Exports), Billion))
      && f.traces[1].values == Shares(Divided(SectorMeasure(rows, Imports), Billion)))
  {
    if rows == [] then Err(MissingColumn("X"))
    else
      var keys := SectorKeys(rows);
      Ok(Figure(SectorsTitle,
        [Trace("Экспорт", Donut, keys, Shares(Divided(SectorMeasure(rows, Exports), Billion)), [], [], [], false),
         Trace("Импорт", Donut, keys, Shares(Divided(SectorMeasure(rows, Imports), Billion)), [], [], [], false)],
        [], true))
  }

  /** Each donut shows every sector's share of the raw total in percent,
      whatever the unit the measures were converted to first; with
      non-negative measures and a positive total the slices add up to 100
      and each lies between 0 and 100 (`DonutShares`). */
  lemma SectorDonuts(rows: seq<SectorRow>, d: Direction)
    requires rows != []
    ensures SectorsFigure(rows).value.traces[if d == Exports then 0 else 1].values == Shares(SectorMeasure(rows, d))
  {
    SharesUnitFree(SectorMeasure(rows, d), Billion);
  }

  // ---------------------------------------------------------------------
  // update_trade_geography

  const GeographyTitle: string := "Доля торговли по регионам мира"

  /** Grouped columns per known region: the export and the import share in
      percent, the percentage written on the column, `fmt_ru` of the amount
      in billions on hover. An empty frame lacks `world_part`. */
  function GeographyFigure(rows: seq<RegionRow>): (r: Result<Figure>)
    ensures r.Ok? <==> rows != []
    ensures rows == [] ==> r == Err(MissingColumn("world_part"))
    ensures r.Ok? ==> (
      var f := r.value;
      && |f.traces| == 2 && f.annotations == [] && f.axesVisible
      && f.traces[0] == RegionBars("Экспорт", Known(rows), Exports)
      && f.traces[1] == RegionBars("Импорт", Known(rows), Imports))
  {
    if rows == [] then Err(MissingColumn("world_part"))
    else
      var known := Known(rows);
      Ok(Figure(GeographyTitle,
        [RegionBars("Экспорт", known, Exports), RegionBars("Импорт", known, Imports)],
        [], true))
  }

  function RegionKeys(known: seq<RegionRow>): (ks: seq<Key>)
    ensures |ks| == |known| && forall i :: 0 <= i < |known| ==> ks[i] == Name(known[i].worldPart)
  {
    seq(|known|, i requires 0 <= i < |known| => Name(known[i].worldPart))
  }

  /** The share of each region in percent. */
  function RegionShares(known: seq<RegionRow>, d: Direction): (ps: seq<Measure>)
    ensures |ps| == |known|
    ensures forall i :: 0 <= i < |known| ==>
      ps[i] == Num((if d == Exports then known[i].exportShare else known[i].importShare) * 100.0)
    ensures forall i :: 0 <= i < |known| ==>
      ps[i].v / 100.0 == if d == Exports then known[i].exportShare else known[i].importShare
  {
    seq(|known|, i requires 0 <= i < |known| => Num((if d == Exports then known[i].exportShare else known[i].importShare) * 100.0))
  }

  /** The traded amount of each region in billions. */
  function RegionAmounts(known: seq<RegionRow>, d: Direction): (ms: seq<Measure>)
    ensures |ms| == |known|
    ensures forall i :: 0 <= i < |known| ==> ms[i] == Num((if d == Exports then known[i].x else known[i].m) / Billion)
  {
    seq(|known|, i requires 0 <= i < |known| => Num((if d == Exports then known[i].x else known[i].m) / Billion))
  }

  /** The columns of one side: the share in percent drawn and written on
      each column, `fmt_ru` of the amount in billions on hover. */
  function RegionBars(name: string, known: seq<RegionRow>, d: Direction): (t: Trace)
    ensures Points(t, |known|) && t.kind == Bars && t.name == name
    ensures t.keys == RegionKeys(known) && t.values == RegionShares(known, d)
    ensures Percented(t.text, t.values) && Labelled(t.hover, RegionAmounts(known, d), 1.0)
  {
    var shares := RegionShares(known, d);
    Trace(name, Bars, RegionKeys(known), shares, PercentTexts(shares), Formatted(RegionAmounts(known, d), 1.0), [], false)
  }

  /** The columns are exactly the regions other than the unknown one, in
      the order of the records, on both sides of the chart. */
  lemma GeographyRegions(rows: seq<RegionRow>)
    requires rows != []
    ensures var f := GeographyFigure(rows).value;
      f.traces[0].keys == f.traces[1].keys == RegionKeys(Known(rows))
    ensures var ks := RegionKeys(Known(rows));
      && (forall k :: k in ks ==> k.Name? && k.name != Unknown)
      && (forall row :: row in rows && row.worldPart != Unknown ==> Name(row.worldPart) in ks)
  {
    var known := Known(rows);
    var ks := RegionKeys(known);
    forall k | k in ks
      ensures k.Name? && k.name != Unknown
    {
      var i :| 0 <= i < |ks| && ks[i] == k;
      assert known[i] in known;
    }
    forall row | row in rows && row.worldPart != Unknown
      ensures Name(row.worldPart) in ks
    {
      assert row in known;
      var i :| 0 <= i < |known| && known[i] == row;
      assert ks[i] == Name(row.worldPart);
    }
  }

  // ---------------------------------------------------------------------
  // update_top_countries

  const CountriesTitle: string := "ТОП-10 стран-партнёров по общему объёму торговли"

  function CountryKeys(rows: seq<PartnerRow>): (ks: seq<Key>)
    ensures |ks| == |rows| && forall i :: 0 <= i < |rows| ==> ks[i] == Name(rows[i].countryName)
  {
    seq(|rows|, i requires 0 <= i < |rows| => Name(rows[i].countryName))
  }

  function Turnovers(rows: seq<PartnerRow>): (ms: seq<Measure>)
    ensures |ms| == |rows| && forall i :: 0 <= i < |rows| ==> ms[i] == Cell(rows[i].turnoverBln)
  {
    seq(|rows|, i requires 0 <= i < |rows| => Cell(rows[i].turnoverBln))
  }

  function BalanceColors(rows: seq<PartnerRow>): (cs: seq<string>)
    ensures |cs| == |rows| && forall i :: 0 <= i < |rows| ==> cs[i] == BalanceColor(Cell(rows[i].balanceBln))
  {
    seq(|rows|, i requires 0 <= i < |rows| => BalanceColor(Cell(rows[i].balanceBln)))
  }

  /** Columns of total trade per partner in billions, green for a surplus
      and red otherwise, with `fmt_ru` of the total written on and over
      each column. Fails as the callback does: on an empty frame, without a
      row for Germany, or without the `turnover_bln` or `balance_bln`
      column. */
  function TopCountriesFigure(rows: seq<PartnerRow>): (r: Result<Figure>)
    ensures r.Ok? <==> (exists j :: 0 <= j < |rows| && rows[j].countryName == KeyPartner)
                       && HasColumn(rows, Turnover) && HasColumn(rows, Balance)
    ensures r.Err? && KeyPartnerFigures(rows).Err? ==> r.failure == KeyPartnerFigures(rows).failure
    ensures KeyPartnerFigures(rows).Ok? && !HasColumn(rows, Turnover) ==> r == Err(MissingColumn("turnover_bln"))
    ensures KeyPartnerFigures(rows).Ok? && HasColumn(rows, Turnover) && !HasColumn(rows, Balance) ==>
      r == Err(MissingColumn("balance_bln"))
    ensures r.Ok? ==> (
      && |r.value.traces| == 1 && Chart(r.value, |rows|)
      && var t := r.value.traces[0];
      && t.kind == Bars && t.keys == CountryKeys(rows) && t.values == Turnovers(rows)
      && Labelled(t.text, t.values, 1.0) && t.hover == t.text && t.colors == BalanceColors(rows))
  {
    match KeyPartnerFigures(rows)
    case Err(e) => Err(e)
    case Ok(_) =>
      if !HasColumn(rows, Turnover) then Err(MissingColumn(ColumnName(Turnover)))
      else if !HasColumn(rows, Balance) then Err(MissingColumn(ColumnName(Balance)))
      else
        var values := Turnovers(rows);
        var labels := Formatted(values, 1.0);
        Ok(Figure(CountriesTitle,
          [Trace("", Bars, CountryKeys(rows), values, labels, labels, BalanceColors(rows), false)],
          [], true))
  }

  // ---------------------------------------------------------------------
  // update_russia_trade

  const RussiaTitle: string := "Торговля с Россией (5 лет)"
  const RussiaEmpty: string := "Нет данных по торговле с Россией"

  /** Export, import and balance with Russia in millions by year; each
      hover string formats the plotted value divided by 1000, that is in
      billions. Without records: the placeholder. */
  function RussiaFigure(rows: seq<FlowRow>): (f: Figure)
    ensures rows == [] ==> IsEmptyState(f) && f.annotations[0].text == RussiaEmpty
    ensures rows != [] ==> (
      && |f.traces| == 3 && Chart(f, |rows|)
      && Line(f.traces[0], Years(rows), 1.0 / 1000.0, false)
      && Line(f.traces[1], Years(rows), 1.0 / 1000.0, false)
      && Line(f.traces[2], Years(rows), 1.0 / 1000.0, false)
      && f.traces[0].values == Flow(rows, Exports, Million)
      && f.traces[1].values == Flow(rows, Imports, Million)
      && f.traces[2].values == DivAll(RussiaBalance(rows), Million))
  {
    if rows == [] then EmptyState(RussiaTitle, RussiaEmpty)
    else
      var years := Years(rows);
      var xs := Flow(rows, Exports, Million);
      var ms := Flow(rows, Imports, Million);
      var bs := DivAll(RussiaBalance(rows), Million);
      Figure(RussiaTitle,
        [LineTrace("Экспорт", years, xs, 1.0 / 1000.0, false),
         LineTrace("Импорт", years, ms, 1.0 / 1000.0, false),
         LineTrace("Сальдо", years, bs, 1.0 / 1000.0, false)],
        [], true)
  }

  /** Plotted in millions, shown in billions: each hover string of the
      Russia chart is `fmt_ru` of the raw amount divided by 10^9, and reads
      back as the plotted value divided by 1000. */
  lemma RussiaHoverInBillions(rows: seq<FlowRow>)
    requires rows != []
    ensures var f := RussiaFigure(rows);
      forall i :: 0 <= i < |rows| ==>
        && f.traces[0].hover[i] == FmtRu(Num(rows[i].x / Billion))
        && f.traces[1].hover[i] == FmtRu(Num(rows[i].m / Billion))
        && f.traces[2].hover[i] == FmtRu(Div(RussiaBalance(rows)[i], Billion))
    ensures var f := RussiaFigure(rows);
      && ReadsBack(f.traces[0].hover, f.traces[0].values, 1.0 / 1000.0)
      && ReadsBack(f.traces[1].hover, f.traces[1].values, 1.0 / 1000.0)
      && ReadsBack(f.traces[2].hover, f.traces[2].values, 1.0 / 1000.0)
  {
    var f := RussiaFigure(rows);
    forall i | 0 <= i < |rows|
      ensures f.traces[0].hover[i] == FmtRu(Num(rows[i].x / Billion))
      ensures f.traces[1].hover[i] == FmtRu(Num(rows[i].m / Billion))
      ensures f.traces[2].hover[i] == FmtRu(Div(RussiaBalance(rows)[i], Billion))
    {
      assert Scale(f.traces[0].values[i], 1.0 / 1000.0) == Num(rows[i].x / Billion);
      assert Scale(f.traces[1].values[i], 1.0 / 1000.0) == Num(rows[i].m / Billion);
      assert Scale(f.traces[2].values[i], 1.0 / 1000.0) == Div(RussiaBalance(rows)[i], Billion);
    }
    LabelledReadsBack(f.traces[0].hover, f.traces[0].values, 1.0 / 1000.0);
    LabelledReadsBack(f.traces[1].hover, f.traces[1].values, 1.0 / 1000.0);
    LabelledReadsBack(f.traces[2].hover, f.traces[2].values, 1.0 / 1000.0);
  }

  // ---------------------------------------------------------------------
  // update_structure_changes

  const StructureTitle: string := "Изменения структуры экспорта (10 лет)"
  const StructureChartTitle: string := "Товарные группы с наибольшим снижением объёмов торговли"
  const StructureEmpty: string := "Недостаточно данных для анализа изменений структуры"

  /** A bar per declining commodity group: the change in billions, names
      cut at 25 characters. Without records: the placeholder. */
  function StructureFigure(rows: seq<ChangeRow>): (f: Figure)
    ensures rows == [] ==> IsEmptyState(f) && f.annotations[0].text == StructureEmpty
    ensures rows != [] ==> (
      && |f.traces| == 1 && Chart(f, |rows|)
      && RankedBars(f.traces[0], Names(rows, ChangeName), SectorBudget)
      && forall i :: 0 <= i < |rows| ==> f.traces[0].values[i] == Num(rows[i].change / Billion))
  {
    if rows == [] then EmptyState(StructureTitle, StructureEmpty)
    else
      var names := Names(rows, ChangeName);
      var values := seq(|rows|, i requires 0 <= i < |rows| => Num(rows[i].change / Billion));
      Figure(StructureChartTitle, [NamedBars(names, values, SectorBudget)], [], true)
  }

  // ---------------------------------------------------------------------
  // update_top_growth_export / update_top_growth_import

  function GrowthTitle(d: Direction): string {
    match d
    case Exports => "Топ-5 прироста по экспорту (2021→2023)"
    case Imports => "Топ-5 прироста по импорту (2021→2023)"
  }

  function GrowthEmpty(d: Direction): (s: string)
    ensures s != []
  {
    match d
    case Exports => "Нет данных по приросту экспорта"
    case Imports => "Нет данных по приросту импорта"
  }

  /** A bar per commodity group with the stored `delta` drawn as it is and
      `fmt_ru` of it written on the bar. Without records: the placeholder. */
  function GrowthFigure(rows: seq<GrowthRow>, d: Direction): (f: Figure)
    ensures rows == [] ==> IsEmptyState(f) && f.annotations[0].text == GrowthEmpty(d)
    ensures rows != [] ==> (
      && |f.traces| == 1 && Chart(f, |rows|)
      && RankedBars(f.traces[0], Names(rows, GrowthName), CommodityBudget)
      && forall i :: 0 <= i < |rows| ==> f.traces[0].values[i] == Num(rows[i].delta))
  {
    if rows == [] then EmptyState(GrowthTitle(d), GrowthEmpty(d))
    else
      var names := Names(rows, GrowthName);
      var values := seq(|rows|, i requires 0 <= i < |rows| => Num(rows[i].delta));
      Figure(GrowthTitle(d), [NamedBars(names, values, CommodityBudget)], [], true)
  }

  /** The bar labels of every ranked chart read back as the drawn amounts. */
  lemma BarLabelsReadBack(t: Trace, names: seq<string>, budget: nat)
    requires RankedBars(t, names, budget)
    ensures ReadsBack(t.text, t.values, 1.0)
  {
    LabelledReadsBack(t.text, t.values, 1.0);
  }

  // ---------------------------------------------------------------------
  // The callbacks: look the view up in the snapshot, then build its figure

  function UpdateTradeDynamics(data: Snapshot): (r: Result<Figure>)
    ensures "trade_dynamics" !in data ==> r == Err(MissingKey("trade_dynamics"))
    ensures "trade_dynamics" in data && data["trade_dynamics"].Flows? ==>
      r == TradeDynamicsFigure(data["trade_dynamics"].flows)
  {
    if "trade_dynamics" !in data then Err(MissingKey("trade_dynamics"))
    else match data["trade_dynamics"]
      case Flows(rows) => TradeDynamicsFigure(rows)
      case _ => Err(WrongShape("trade_dynamics"))
  }

  function CommoditiesKey(d: Direction): string {
    match d
    case Exports => "top_export_commodities"
    case Imports => "top_import_commodities"
  }

  function UpdateTopCommodities(data: Snapshot, d: Direction): (r: Result<Figure>)
    ensures CommoditiesKey(d) !in data ==> r == Err(MissingKey(CommoditiesKey(d)))
    ensures CommoditiesKey(d) in data && data[CommoditiesKey(d)].Commodities? ==>
      r == CommoditiesFigure(data[CommoditiesKey(d)].commodities, d)
  {
    var key := CommoditiesKey(d);
    if key !in data then Err(MissingKey(key))
    else match data[key]
      case Commodities(rows) => CommoditiesFigure(rows, d)
      case _ => Err(WrongShape(key))
  }

  function UpdateEconomicSectors(data: Snapshot): (r: Result<Figure>)
    ensures "economic_sectors" !in data ==> r == Err(MissingKey("economic_sectors"))
    ensures "economic_sectors" in data && data["economic_sectors"].Sectors? ==>
      r == SectorsFigure(data["economic_sectors"].sectors)
  {
    if "economic_sectors" !in data then Err(MissingKey("economic_sectors"))
    else match data["economic_sectors"]
      case Sectors(rows) => SectorsFigure(rows)
      case _ => Err(WrongShape("economic_sectors"))
  }

  function UpdateTradeGeography(data: Snapshot): (r: Result<Figure>)
    ensures "trade_geography" !in data ==> r == Err(MissingKey("trade_geography"))
    ensures "trade_geography" in data && data["trade_geography"].Regions? ==>
      r == GeographyFigure(data["trade_geography"].regions)
  {
    if "trade_geography" !in data then Err(MissingKey("trade_geography"))
    else match data["trade_geography"]
      case Regions(rows) => GeographyFigure(rows)
      case _ => Err(WrongShape("trade_geography"))
  }

  function UpdateTopCountries(data: Snapshot): (r: Result<Figure>)
    ensures "top_partner_countries" !in data ==> r == Err(MissingKey("top_partner_countries"))
    ensures "top_partner_countries" in data && data["top_partner_countries"].Partners? ==>
      r == TopCountriesFigure(data["top_partner_countries"].partners)
  {
    if "top_partner_countries" !in data then Err(MissingKey("top_partner_countries"))
    else match data["top_partner_countries"]
      case Partners(rows) => TopCountriesFigure(rows)
      case _ => Err(WrongShape("top_partner_countries"))
  }

  /** A missing or empty Russia view cannot fail once the key is there: the
      callback draws the chart or the placeholder. */
  function UpdateRussiaTrade(data: Snapshot): (r: Result<Figure>)
    ensures "russia_trade_dynamics" !in data ==> r == Err(MissingKey("russia_trade_dynamics"))
    ensures "russia_trade_dynamics" in data && data["russia_trade_dynamics"].Flows? ==>
      r == Ok(RussiaFigure(data["russia_trade_dynamics"].flows))
  {
    if "russia_trade_dynamics" !in data then Err(MissingKey("russia_trade_dynamics"))
    else match data["russia_trade_dynamics"]
      case Flows(rows) => Ok(RussiaFigure(rows))
      case _ => Err(WrongShape("russia_trade_dynamics"))
  }

  function UpdateStructureChanges(data: Snapshot): (r: Result<Figure>)
    ensures "declining_commodities" !in data ==> r == Err(MissingKey("declining_commodities"))
    ensures "declining_commodities" in data && data["declining_commodities"].Changes? ==>
      r == Ok(StructureFigure(data["declining_commodities"].changes))
  {
    if "declining_commodities" !in data then Err(MissingKey("declining_commodities"))
    else match data["declining_commodities"]
      case Changes(rows) => Ok(StructureFigure(rows))
      case _ => Err(WrongShape("declining_commodities"))
  }

  function GrowthKey(d: Direction): string {
    match d
    case Exports => "export_growth"
    case Imports => "import_growth"
  }

  function UpdateTopGrowth(data: Snapshot, d: Direction): (r: Result<Figure>)
    ensures GrowthKey(d) !in data ==> r == Err(MissingKey(GrowthKey(d)))
    ensures GrowthKey(d) in data && data[GrowthKey(d)].Growths? ==>
      r == Ok(GrowthFigure(data[GrowthKey(d)].growths, d))
  {
    var key := GrowthKey(d);
    if key !in data then Err(MissingKey(key))
    else match data[key]
      case Growths(rows) => Ok(GrowthFigure(rows, d))
      case _ => Err(WrongShape(key))
  }

  /** The three figures of the key-partner block as written on the page. */
  function PanelTexts(k: KeyFigures): (texts: seq<string>)
    ensures Labelled(texts, [k.turnover, k.exports, k.imports], 1.0)
  {
    Formatted([k.turnover, k.exports, k.imports], 1.0)
  }

  /** The key-partner block: `fmt_ru` of turnover, exports and imports with
      Germany, from `top_partner_countries`. */
  function KeyPartnerPanel(data: Snapshot): (r: Result<seq<string>>)
    ensures "top_partner_countries" !in data ==> r == Err(MissingKey("top_partner_countries"))
    ensures "top_partner_countries" in data && data["top_partner_countries"].Partners? ==> (
      var k := KeyPartnerFigures(data["top_partner_countries"].partners);
      && (r.Ok? <==> k.Ok?)
      && (k.Err? ==> r == Err(k.failure)))
    ensures r.Ok? ==> (
      && "top_partner_countries" in data && data["top_partner_countries"].Partners?
      && var k := KeyPartnerFigures(data["top_partner_countries"].partners);
      && k.Ok? && |r.value| == 3 && r.value == PanelTexts(k.value))
  {
    if "top_partner_countries" !in data then Err(MissingKey("top_partner_countries"))
    else match data["top_partner_countries"]
      case Partners(rows) =>
        (match KeyPartnerFigures(rows)
         case Err(e) => Err(e)
         case Ok(k) => Ok(PanelTexts(k)))
      case _ => Err(WrongShape("top_partner_countries"))
  }

  /** When Germany's record agrees with its X and M and carries every
      precomputed column the frame has, the block reads back as the trade
      derived from X and M, in billions. */
  lemma KeyPartnerPanelReadsBack(rows: seq<PartnerRow>, i: nat)
    requires i < |rows| && rows[i].countryName == KeyPartner
    requires forall j :: 0 <= j < i ==> rows[j].countryName != KeyPartner
    requires Agrees(rows[i])
    requires forall f :: f != Balance && HasColumn(rows, f) ==> Field(rows[i], f).Some?
    ensures KeyPartnerFigures(rows).Ok?
    ensures ReadsBack(PanelTexts(KeyPartnerFigures(rows).value),
                      [Num(rows[i].x + rows[i].m), Num(rows[i].x), Num(rows[i].m)], 1.0 / Billion)
  {
    KeyFiguresDerivable(rows, i);
    DerivedPanelReadsBack(rows[i]);
  }

  /** The block of figures derived from X and M reads back as X + M, X and
      M in billions. */
  lemma DerivedPanelReadsBack(row: PartnerRow)
    ensures ReadsBack(PanelTexts(Derived(row)), [Num(row.x + row.m), Num(row.x), Num(row.m)], 1.0 / Billion)
  {
    var k := Derived(row);
    var values := [Num(row.x + row.m), Num(row.x), Num(row.m)];
    PanelScaled(row);
    FormattedRescaled([k.turnover, k.exports, k.imports], values, 1.0 / Billion);
    LabelledReadsBack(Formatted(values, 1.0 / Billion), values, 1.0 / Billion);
  }

  /** The derived figures are X + M, X and M scaled to billions. */
  lemma PanelScaled(row: PartnerRow)
    ensures var k := Derived(row);
      var values := [Num(row.x + row.m), Num(row.x), Num(row.m)];
      forall j :: 0 <= j < 3 ==> [k.turnover, k.exports, k.imports][j] == Scale(values[j], 1.0 / Billion)
  {
  }
}
