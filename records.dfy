/** The loaded snapshot: one record sequence per view, each record typed by
    the view it belongs to. */
module Records {
  import opened Basics
  import opened NumberFormat

  /** One year of trade, with the world (`trade_dynamics`) or with Russia
      (`russia_trade_dynamics`); X and M in USD. `balance` is None when the
      record has no `balance` key. */
  datatype FlowRow = FlowRow(year: int, x: real, m: real, balance: Option<real>)

  /** A commodity group of `top_export_commodities` or `top_import_commodities`. */
  datatype CommodityRow = CommodityRow(commodityName: string, primaryValue: real)

  /** An economic sector of `economic_sectors`. */
  datatype SectorRow = SectorRow(sector: string, x: real, m: real)

  /** A world region of `trade_geography`; shares are fractions of the total. */
  datatype RegionRow = RegionRow(worldPart: string, exportShare: real, importShare: real, x: real, m: real)

  /** A partner country of `top_partner_countries`; the `*Bln` fields are the
      precomputed figures in billions, None when the record lacks the key. */
  datatype PartnerRow = PartnerRow(
    countryName: string,
    x: real,
    m: real,
    turnoverBln: Option<real>,
    exportBln: Option<real>,
    importBln: Option<real>,
    balanceBln: Option<real>)

  /** A commodity group of `declining_commodities`, `change` in USD. */
  datatype ChangeRow = ChangeRow(commodityName: string, change: real)

  /** A commodity group of `export_growth` or `import_growth`, `delta` as stored. */
  datatype GrowthRow = GrowthRow(commodityName: string, delta: real)

  datatype Table =
    | Flows(flows: seq<FlowRow>)
    | Commodities(commodities: seq<CommodityRow>)
    | Sectors(sectors: seq<SectorRow>)
    | Regions(regions: seq<RegionRow>)
    | Partners(partners: seq<PartnerRow>)
    | Changes(changes: seq<ChangeRow>)
    | Growths(growths: seq<GrowthRow>)

  /** The JSON snapshot: view name to records. */
  type Snapshot = map<string, Table>

  const Billion: real := 1000000000.0
  const Million: real := 1000000.0

  /** The cell a DataFrame built from the records holds for a key a record
      may lack: the value, or NaN. */
  function Cell(o: Option<real>): (m: Measure)
    ensures m.NaN? <==> o.None?
    ensures m.Num? ==> m.v == o.value
  {
    match o
    case None => NaN
    case Some(v) => Num(v)
  }

  /** A DataFrame built from records has a column for a key when at least
      one record carries it. */
  predicate HasBalance(rows: seq<FlowRow>) {
    exists i :: 0 <= i < |rows| && rows[i].balance.Some?
  }

  /** The precomputed fields of a partner record. */
  datatype PartnerField = Turnover | Export | Import | Balance

  function ColumnName(f: PartnerField): string {
    match f
    case Turnover => "turnover_bln"
    case Export => "export_bln"
    case Import => "import_bln"
    case Balance => "balance_bln"
  }

  function Field(r: PartnerRow, f: PartnerField): Option<real> {
    match f
    case Turnover => r.turnoverBln
    case Export => r.exportBln
    case Import => r.importBln
    case Balance => r.balanceBln
  }

  predicate HasColumn(rows: seq<PartnerRow>, f: PartnerField) {
    exists i :: 0 <= i < |rows| && Field(rows[i], f).Some?
  }
}
