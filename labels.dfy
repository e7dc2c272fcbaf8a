/** Shortening of long category names for chart axes and pie labels:
    `(x[:n] + "...") if len(x) > n else x`. */
module Labels {

  const Ellipsis: string := "..."

  /** Character budgets: commodity names on the ranked-bar charts, and
      sector names and declining-commodity names. */
  const CommodityBudget: nat := 35
  const SectorBudget: nat := 25

  /** The label shown for `name` under a budget of `n` characters. A name
      within the budget is kept; a longer one keeps its first `n`
      characters and gains an ellipsis. */
  function Truncate(name: string, n: nat): (r: string)
    ensures |name| <= n ==> r == name
    ensures |name| > n ==> |r| == n + |Ellipsis| && r[..n] == name[..n] && r[n..] == Ellipsis
  {
    if |name| > n then name[..n] + Ellipsis else name
  }

  /** Shortening an already shortened label changes nothing. */
  lemma TruncateIdempotent(name: string, n: nat)
    ensures Truncate(Truncate(name, n), n) == Truncate(name, n)
  {
    if |name| > n {
      var r := Truncate(name, n);
      assert r[..n] == name[..n];
    }
  }

  /** Two names get the same label exactly when they are equal or are both
      over the budget and agree on the first `n` characters. */
  lemma TruncateCollision(a: string, b: string, n: nat)
    ensures Truncate(a, n) == Truncate(b, n) <==> a == b || (|a| > n && |b| > n && a[..n] == b[..n])
  {
    var ra, rb := Truncate(a, n), Truncate(b, n);
    if ra == rb && a != b {
      assert a[..n] == ra[..n] == rb[..n] == b[..n];
    }
  }

  /** A name is shown as it is exactly when it fits the budget or already
      reads as a shortened label: `n` characters and an ellipsis. */
  lemma TruncateKeeps(name: string, n: nat)
    ensures Truncate(name, n) == name <==> |name| <= n || (|name| == n + |Ellipsis| && name[n..] == Ellipsis)
  {
    if |name| == n + |Ellipsis| && name[n..] == Ellipsis {
      assert name == name[..n] + name[n..];
    }
  }
}
