/** The numeric columns the callbacks derive before plotting: unit
    conversion, sector shares, the region filter, the Russia balance
    fallback, the balance colour rule and the key-partner lookup. */
module Aggregate {
  import opened Basics
  import opened NumberFormat
  import opened Records

  // ---------------------------------------------------------------------
  // Sums and shares

  function Sum(xs: seq<real>): real {
    if xs == [] then 0.0 else Sum(xs[..|xs| - 1]) + xs[|xs| - 1]
  }

  /** The sum of the numbers among `ms`, NaN skipped, as pandas sums. */
  function NumSum(ms: seq<Measure>): real {
    if ms == [] then 0.0
    else NumSum(ms[..|ms| - 1]) + (match ms[|ms| - 1] case NaN => 0.0 case Num(v) => v)
  }

  /** Every value divided by `d`: `df[col] / d`. */
  function Divided(xs: seq<real>, d: real): (r: seq<real>)
    requires d != 0.0
    ensures |r| == |xs| && forall i :: 0 <= i < |xs| ==> r[i] * d == xs[i]
  {
    seq(|xs|, i requires 0 <= i < |xs| => xs[i] / d)
  }

  /** `col / col.sum() * 100`. A zero total gives NaN, pandas' 0 / 0 (with
      non-negative values a zero total means every value is zero). */
  function Shares(xs: seq<real>): (r: seq<Measure>)
    ensures |r| == |xs|
    ensures Sum(xs) == 0.0 ==> forall i :: 0 <= i < |r| ==> r[i].NaN?
    ensures Sum(xs) != 0.0 ==> forall i :: 0 <= i < |r| ==> r[i].Num? && r[i].v * Sum(xs) == xs[i] * 100.0
  {
    var total := Sum(xs);
    seq(|xs|, i requires 0 <= i < |xs| => if total == 0.0 then NaN else Num(xs[i] / total * 100.0))
  }

  lemma {:induction false} SumDivided(xs: seq<real>, d: real)
    requires d != 0.0
    ensures Sum(Divided(xs, d)) == Sum(xs) / d
  {
    if xs != [] {
      var n := |xs| - 1;
      assert Divided(xs, d)[..n] == Divided(xs[..n], d);
      SumDivided(xs[..n], d);
    }
  }

  /** Shares do not depend on the unit: converting to billions first, as
      the sector view does, gives the shares of the raw values. */
  lemma SharesUnitFree(xs: seq<real>, d: real)
    requires d > 0.0
    ensures Shares(Divided(xs, d)) == Shares(xs)
  {
    SumDivided(xs, d);
    var ys := Divided(xs, d);
    if Sum(xs) != 0.0 {
      forall i | 0 <= i < |xs|
        ensures Shares(ys)[i] == Shares(xs)[i]
      {
        assert ys[i] / Sum(ys) == xs[i] / Sum(xs) by {
          assert ys[i] == xs[i] / d;
          assert Sum(ys) == Sum(xs) / d;
        }
      }
    }
  }

  /** The shares of a non-zero total add up to 100. */
  lemma {:induction false} SharesTotal(xs: seq<real>)
    requires Sum(xs) != 0.0
    ensures NumSum(Shares(xs)) == 100.0
  {
    var total := Sum(xs);
    PartialShares(xs, total, |xs|);
    assert xs[..|xs|] == xs;
    assert Sum(xs) / total == 1.0;
    assert Shares(xs) == seq(|xs|, i requires 0 <= i < |xs| => Num(xs[i] / total * 100.0));
  }

  lemma {:induction false} PartialShares(xs: seq<real>, total: real, k: nat)
    requires total != 0.0 && k <= |xs|
    ensures NumSum(seq(k, i requires 0 <= i < k => Num(xs[i] / total * 100.0))) == Sum(xs[..k]) / total * 100.0
  {
    if k > 0 {
      var ms := seq(k, i requires 0 <= i < k => Num(xs[i] / total * 100.0));
      assert ms[..k - 1] == seq(k - 1, i requires 0 <= i < k - 1 => Num(xs[i] / total * 100.0));
      assert xs[..k][..k - 1] == xs[..k - 1];
      PartialShares(xs, total, k - 1);
    } else {
      assert xs[..0] == [];
    }
  }

  lemma {:induction false} SumNonNegative(xs: seq<real>)
    requires forall i :: 0 <= i < |xs| ==> xs[i] >= 0.0
    ensures Sum(xs) >= 0.0
    ensures forall i :: 0 <= i < |xs| ==> xs[i] <= Sum(xs)
  {
    if xs != [] {
      SumNonNegative(xs[..|xs| - 1]);
    }
  }

  /** With non-negative values and a positive total, every share lies
      between 0 and 100. */
  lemma SharesBounded(xs: seq<real>)
    requires forall i :: 0 <= i < |xs| ==> xs[i] >= 0.0
    requires Sum(xs) > 0.0
    ensures forall i :: 0 <= i < |xs| ==> 0.0 <= Shares(xs)[i].v <= 100.0
  {
    SumNonNegative(xs);
    var total := Sum(xs);
    forall i | 0 <= i < |xs|
      ensures 0.0 <= Shares(xs)[i].v <= 100.0
    {
      assert xs[i] / total <= 1.0;
      assert Shares(xs)[i].v == xs[i] / total * 100.0;
    }
  }

  /** The percentages a donut shows for non-negative measures with a
      positive total: they add up to 100, and each lies between 0 and 100
      and is its measure's part of the total. */
  lemma DonutShares(xs: seq<real>)
    requires forall i :: 0 <= i < |xs| ==> xs[i] >= 0.0
    requires Sum(xs) > 0.0
    ensures NumSum(Shares(xs)) == 100.0
    ensures forall i :: 0 <= i < |xs| ==>
      Shares(xs)[i].Num? && 0.0 <= Shares(xs)[i].v <= 100.0 && Shares(xs)[i].v * Sum(xs) == xs[i] * 100.0
  {
    SharesTotal(xs);
    SharesBounded(xs);
  }

  // ---------------------------------------------------------------------
  // Regions

  const Unknown: string := "Неизвестно"

  /** `df[df["world_part"] != "Неизвестно"]`: the regions other than the
      unknown one, in their order. */
  function Known(rows: seq<RegionRow>): (r: seq<RegionRow>)
    ensures |r| <= |rows|
    ensures forall row :: row in r <==> row in rows && row.worldPart != Unknown
  {
    if rows == [] then []
    else
      var rest := Known(rows[..|rows| - 1]);
      var last := rows[|rows| - 1];
      assert rows == rows[..|rows| - 1] + [last];
      if last.worldPart != Unknown then rest + [last] else rest
  }

  /** The filter keeps the order: filtering a concatenation concatenates
      the filtered parts. */
  lemma {:induction false} KnownAppend(a: seq<RegionRow>, b: seq<RegionRow>)
    ensures Known(a + b) == Known(a) + Known(b)
  {
    if b != [] {
      var n := |b| - 1;
      assert (a + b)[..|a + b| - 1] == a + b[..n];
      KnownAppend(a, b[..n]);
    } else {
      assert a + b == a;
    }
  }

  // ---------------------------------------------------------------------
  // Balance

  /** The Russia view's balance column: the stored `balance` when the
      records have that key (NaN where one lacks it), X - M otherwise. */
  function RussiaBalance(rows: seq<FlowRow>): (r: seq<Measure>)
    ensures |r| == |rows|
    ensures !HasBalance(rows) ==> forall i :: 0 <= i < |rows| ==> r[i] == Num(rows[i].x - rows[i].m)
    ensures HasBalance(rows) ==> forall i :: 0 <= i < |rows| ==> r[i] == Cell(rows[i].balance)
  {
    if HasBalance(rows) then seq(|rows|, i requires 0 <= i < |rows| => Cell(rows[i].balance))
    else seq(|rows|, i requires 0 <= i < |rows| => Num(rows[i].x - rows[i].m))
  }

  /** When every record carries a balance equal to X - M, the fallback and
      the stored column agree. */
  lemma RussiaBalanceConsistent(rows: seq<FlowRow>)
    requires forall i :: 0 <= i < |rows| ==> rows[i].balance == Some(rows[i].x - rows[i].m)
    ensures forall i :: 0 <= i < |rows| ==> RussiaBalance(rows)[i] == Num(rows[i].x - rows[i].m)
  {
  }

  const Surplus: string := "#27ae60"
  const Deficit: string := "#e74c3c"

  /** The bar colour of a partner: green for a balance of at least zero,
      red for a deficit and for NaN (NaN >= 0 is false). */
  function BalanceColor(balance: Measure): (c: string)
    ensures c == Surplus <==> balance.Num? && balance.v >= 0.0
    ensures c == Surplus || c == Deficit
  {
    if balance.Num? && balance.v >= 0.0 then Surplus else Deficit
  }

  // ---------------------------------------------------------------------
  // The key partner

  const KeyPartner: string := "Германия"

  /** The position of the first record of country `name`, as
      `df[df["country_name"] == name].iloc[0]` selects it. */
  function FirstIndex(rows: seq<PartnerRow>, name: string): (r: Option<nat>)
    ensures r.Some? ==> r.value < |rows| && rows[r.value].countryName == name
    ensures r.Some? ==> forall j :: 0 <= j < r.value ==> rows[j].countryName != name
    ensures r.None? ==> forall j :: 0 <= j < |rows| ==> rows[j].countryName != name
  {
    if rows == [] then None
    else if rows[0].countryName == name then Some(0)
    else match FirstIndex(rows[1..], name)
      case None => None
      case Some(k) => Some(k + 1)
  }

  /** Turnover, exports and imports with the key partner, in billions. */
  datatype KeyFigures = KeyFigures(turnover: Measure, exports: Measure, imports: Measure)

  /** `row.get(column, fallback)`: the row's cell when the frame has the
      column, the fallback otherwise. */
  function GetOr(rows: seq<PartnerRow>, i: nat, f: PartnerField, fallback: real): (m: Measure)
    requires i < |rows|
    ensures HasColumn(rows, f) ==> m == Cell(Field(rows[i], f))
    ensures !HasColumn(rows, f) ==> m == Num(fallback)
  {
    if HasColumn(rows, f) then Cell(Field(rows[i], f)) else Num(fallback)
  }

  /** The figures derived from a record's raw measures alone. */
  function Derived(r: PartnerRow): KeyFigures {
    KeyFigures(Num((r.x + r.m) / Billion), Num(r.x / Billion), Num(r.m / Billion))
  }

  /** The figures of the record at `i`: each taken from its precomputed
      column when the frame has one, derived from X and M otherwise. */
  function FiguresAt(rows: seq<PartnerRow>, i: nat): KeyFigures
    requires i < |rows|
  {
    KeyFigures(
      GetOr(rows, i, Turnover, (rows[i].x + rows[i].m) / Billion),
      GetOr(rows, i, Export, rows[i].x / Billion),
      GetOr(rows, i, Import, rows[i].m / Billion))
  }

  /** The key-partner block: the figures of the first record of Germany. An
      empty frame has no `country_name` column, and a frame without Germany
      has no row to select. */
  function KeyPartnerFigures(rows: seq<PartnerRow>): (r: Result<KeyFigures>)
    ensures rows == [] ==> r == Err(MissingColumn("country_name"))
    ensures r.Ok? <==> exists j :: 0 <= j < |rows| && rows[j].countryName == KeyPartner
    ensures rows != [] && r.Err? ==> r.failure == NoSuchRow(KeyPartner)
    ensures r.Ok? ==> FirstIndex(rows, KeyPartner).Some? && r.value == FiguresAt(rows, FirstIndex(rows, KeyPartner).value)
  {
    if rows == [] then Err(MissingColumn("country_name"))
    else match FirstIndex(rows, KeyPartner)
      case None => Err(NoSuchRow(KeyPartner))
      case Some(i) => Ok(FiguresAt(rows, i))
  }

  /** A precomputed field agrees with the raw measures when present. */
  predicate Agrees(r: PartnerRow) {
    && (r.turnoverBln.Some? ==> r.turnoverBln.value == (r.x + r.m) / Billion)
    && (r.exportBln.Some? ==> r.exportBln.value == r.x / Billion)
    && (r.importBln.Some? ==> r.importBln.value == r.m / Billion)
  }

  /** The block shows the derived figures whether or not the precomputed
      columns exist, as long as Germany's record carries every column the
      frame has and agrees with its own X and M. */
  lemma KeyFiguresDerivable(rows: seq<PartnerRow>, i: nat)
    requires i < |rows| && rows[i].countryName == KeyPartner
    requires forall j :: 0 <= j < i ==> rows[j].countryName != KeyPartner
    requires Agrees(rows[i])
    requires forall f :: f != Balance && HasColumn(rows, f) ==> Field(rows[i], f).Some?
    ensures KeyPartnerFigures(rows) == Ok(Derived(rows[i]))
  {
    var k := FirstIndex(rows, KeyPartner).value;
    assert k == i;
    assert Turnover != Balance && Export != Balance && Import != Balance;
  }

  /** A record that lacks a column other records carry shows as NaN, not
      as the figure derived from X and M. */
  lemma KeyFiguresMissingCell()
    ensures var rows := [PartnerRow(KeyPartner, 2.0 * Billion, 1.0 * Billion, None, None, None, None),
                         PartnerRow("Швеция", 1.0 * Billion, 1.0 * Billion, Some(2.0), None, None, None)];
      KeyPartnerFigures(rows) == Ok(KeyFigures(NaN, Num(2.0), Num(1.0)))
  {
    var rows := [PartnerRow(KeyPartner, 2.0 * Billion, 1.0 * Billion, None, None, None, None),
                 PartnerRow("Швеция", 1.0 * Billion, 1.0 * Billion, Some(2.0), None, None, None)];
    assert HasColumn(rows, Turnover) by { assert Field(rows[1], Turnover).Some?; }
    assert !HasColumn(rows, Export);
    assert !HasColumn(rows, Import);
    assert FirstIndex(rows, KeyPartner) == Some(0);
  }
}
