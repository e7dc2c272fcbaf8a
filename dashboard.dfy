/** The dashboard as a whole: the key-partner block, built when the program
    loads, and the figure of every callback. */
module Dashboard {
  import opened Basics
  import opened Records
  import opened Charts

  /** What the page shows: the key-partner block and, per chart, the figure
      or the error its callback raises. */
  datatype Page = Page(
    panel: Result<seq<string>>,
    dynamics: Result<Figure>,
    exportCommodities: Result<Figure>,
    importCommodities: Result<Figure>,
    sectors: Result<Figure>,
    geography: Result<Figure>,
    countries: Result<Figure>,
    russia: Result<Figure>,
    structure: Result<Figure>,
    exportGrowth: Result<Figure>,
    importGrowth: Result<Figure>)

  /** Every part of the page built on its own, so that a part that fails
      leaves the others drawn. */
  function Render(data: Snapshot): Page {
    Page(
      KeyPartnerPanel(data),
      UpdateTradeDynamics(data),
      UpdateTopCommodities(data, Exports),
      UpdateTopCommodities(data, Imports),
      UpdateEconomicSectors(data),
      UpdateTradeGeography(data),
      UpdateTopCountries(data),
      UpdateRussiaTrade(data),
      UpdateStructureChanges(data),
      UpdateTopGrowth(data, Exports),
      UpdateTopGrowth(data, Imports))
  }

  /** The program as written: the key-partner block is computed while the
      module loads, before the app exists, so a snapshot whose block fails
      stops the program and no chart is drawn at all. */
  function Start(data: Snapshot): (r: Result<Page>)
    ensures r.Ok? <==> KeyPartnerPanel(data).Ok?
    ensures KeyPartnerPanel(data).Err? ==> r == Err(KeyPartnerPanel(data).failure)
    ensures r.Ok? ==> r.value == Render(data)
  {
    match KeyPartnerPanel(data)
    case Err(e) => Err(e)
    case Ok(_) => Ok(Render(data))
  }

  /** A snapshot with a complete trade dynamics view and no partner
      records: the chart could be drawn, yet the program does not start. */
  lemma MissingKeyPartnerStopsStart()
    ensures var data := map[
        "trade_dynamics" := Flows([FlowRow(2023, 2.0 * Billion, 1.0 * Billion, Some(1.0 * Billion))]),
        "top_partner_countries" := Partners([])];
      && Start(data) == Err(MissingColumn("country_name"))
      && Render(data).dynamics.Ok?
  {
    var rows := [FlowRow(2023, 2.0 * Billion, 1.0 * Billion, Some(1.0 * Billion))];
    var data := map["trade_dynamics" := Flows(rows), "top_partner_countries" := Partners([])];
    assert HasBalance(rows) by { assert rows[0].balance.Some?; }
    assert data["trade_dynamics"] == Flows(rows);
  }

  /** Whatever the partner view holds, every part of the rendered page
      other than the key-partner block and the partner chart stays the
      same: a failing block cannot take another chart down. */
  lemma RenderIsolated(data: Snapshot, partners: Table)
    ensures var p, q := Render(data), Render(data["top_partner_countries" := partners]);
      && p.dynamics == q.dynamics
      && p.exportCommodities == q.exportCommodities
      && p.importCommodities == q.importCommodities
      && p.sectors == q.sectors
      && p.geography == q.geography
      && p.russia == q.russia
      && p.structure == q.structure
      && p.exportGrowth == q.exportGrowth
      && p.importGrowth == q.importGrowth
  {
  }
}
