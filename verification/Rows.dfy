/** What a row of the sales breakdown shows, spelled on the facts and figures of the lines. */
module Rows {
  import opened Prelude
  import opened Orders
  import opened Breakdown

  // ----- What a key says

  /** Whether two lines belong to the same row. */
  predicate SameGroup(g: GroupBy, a: Facts, b: Facts) {
    match g
    case ByPeriod => a.period == b.period
    case ByProduct => a.product == b.product && a.name == b.name
    case ByMethod => a.payBy == b.payBy
    case ByStatus => a.status == b.status
  }

  /** A row shows what its lines share and leaves the other places empty. */
  predicate Shows(g: GroupBy, k: Key, f: Facts) {
    && k.period == (if g == ByPeriod then Some(f.period) else None)
    && k.product == (if g == ByProduct then Some(f.product) else None)
    && k.name == (if g == ByProduct then f.name else "")
    && k.payBy == (if g == ByMethod then Some(f.payBy) else None)
    && k.status == (if g == ByStatus then Some(f.status) else None)
  }

  /** Two lines share a row exactly when they agree on what is grouped by. */
  lemma {:induction false} KeyShows(g: GroupBy, a: Facts, b: Facts)
    ensures Shows(g, BreakdownKey(g, a), b) <==> SameGroup(g, a, b)
    ensures BreakdownKey(g, a) == BreakdownKey(g, b) <==> SameGroup(g, a, b)
  {
  }

  lemma {:induction false} ShownOnce(g: GroupBy, j: Key, k: Key, f: Facts)
    requires Shows(g, j, f) && Shows(g, k, f)
    ensures j == k
  {
  }

  // ----- Figures of a group

  function Over<T>(lines: seq<T>, figure: T -> int): int {
    if lines == [] then 0 else Over(lines[..|lines| - 1], figure) + figure(lines[|lines| - 1])
  }

  function MetricsLike(g: GroupBy, metrics: seq<Metric>, f: Facts): seq<Metric> {
    if metrics == [] then []
    else
      var last := metrics[|metrics| - 1];
      MetricsLike(g, metrics[..|metrics| - 1], f) + (if SameGroup(g, last.facts, f) then [last] else [])
  }

  function OpenLike(g: GroupBy, open: seq<OpenLine>, f: Facts): seq<OpenLine> {
    if open == [] then []
    else
      var last := open[|open| - 1];
      OpenLike(g, open[..|open| - 1], f) + (if SameGroup(g, last.facts, f) then [last] else [])
  }

  /** The figures of some recognised lines. */
  ghost predicate Figures(v: Values, sold: seq<Metric>) {
    && v.lines == |sold|
    && v.quantity == Over(sold, (m: Metric) => m.quantity)
    && v.gross == Over(sold, (m: Metric) => m.gross)
    && v.refund == Over(sold, (m: Metric) => m.refund)
    && v.known == Over(sold, (m: Metric) => if m.unitCost.Some? then 1 else 0)
    && v.cost == Over(sold, (m: Metric) => if m.unitCost.Some? then m.unitCost.value * m.quantity else 0)
  }

  function Owed(open: seq<OpenLine>): int {
    Over(open, (p: OpenLine) => p.total)
  }

  lemma {:induction false} OverMore<T>(lines: seq<T>, x: T, figure: T -> int)
    ensures Over(lines + [x], figure) == Over(lines, figure) + figure(x)
  {
    assert (lines + [x])[..|lines|] == lines;
  }

  lemma {:induction false} FiguresMore(v: Values, sold: seq<Metric>, m: Metric)
    requires Figures(v, sold)
    ensures Figures(v.Plus(MetricValues(m)), sold + [m])
  {
    OverMore(sold, m, (m: Metric) => m.quantity);
    OverMore(sold, m, (m: Metric) => m.gross);
    OverMore(sold, m, (m: Metric) => m.refund);
    OverMore(sold, m, (m: Metric) => if m.unitCost.Some? then 1 else 0);
    OverMore(sold, m, (m: Metric) => if m.unitCost.Some? then m.unitCost.value * m.quantity else 0);
    hide Over;
  }

  lemma {:induction false} GroupFigures(g: GroupBy, metrics: seq<Metric>, f: Facts)
    ensures var v := ValuesOf(Recognised(g, metrics), BreakdownKey(g, f));
            Figures(v, MetricsLike(g, metrics, f)) && v.pending == 0
  {
    if metrics == [] {
      assert Recognised(g, metrics) == [];
    } else {
      var init, last := metrics[..|metrics| - 1], metrics[|metrics| - 1];
      GroupFigures(g, init, f);
      assert Recognised(g, metrics)[..|init|] == Recognised(g, init);
      KeyShows(g, last.facts, f);
      hide BreakdownKey, Figures, SameGroup, Recognised;
      FiguresMore(ValuesOf(Recognised(g, init), BreakdownKey(g, f)), MetricsLike(g, init, f), last);
      assert MetricsLike(g, init, f) + [] == MetricsLike(g, init, f);
    }
  }

  lemma {:induction false} GroupOwed(g: GroupBy, open: seq<OpenLine>, f: Facts)
    ensures ValuesOf(StillOpen(g, open), BreakdownKey(g, f)) == Nothing.(pending := Owed(OpenLike(g, open, f)))
  {
    if open == [] {
      assert StillOpen(g, open) == [];
    } else {
      var init, last := open[..|open| - 1], open[|open| - 1];
      GroupOwed(g, init, f);
      assert StillOpen(g, open)[..|init|] == StillOpen(g, init);
      KeyShows(g, last.facts, f);
      OverMore(OpenLike(g, init, f), last, (p: OpenLine) => p.total);
      hide BreakdownKey, SameGroup, StillOpen, Over;
      assert OpenLike(g, init, f) + [] == OpenLike(g, init, f);
    }
  }

  // ----- Rows and lines

  predicate IsLine(metrics: seq<Metric>, open: seq<OpenLine>, f: Facts) {
    (exists i :: 0 <= i < |metrics| && metrics[i].facts == f) || (exists i :: 0 <= i < |open| && open[i].facts == f)
  }

  /** A row that shows the line's value and sums exactly the lines that share it. */
  ghost predicate RowFor(g: GroupBy, r: Row, metrics: seq<Metric>, open: seq<OpenLine>, f: Facts) {
    && Shows(g, r.key, f)
    && Figures(r.values, MetricsLike(g, metrics, f))
    && r.values.pending == Owed(OpenLike(g, open, f))
  }

  lemma {:induction false} KeyRow(g: GroupBy, metrics: seq<Metric>, open: seq<OpenLine>, r: Row, f: Facts)
    requires r.key == BreakdownKey(g, f)
    requires r.values == ValuesOf(Recognised(g, metrics), r.key).Plus(ValuesOf(StillOpen(g, open), r.key))
    ensures RowFor(g, r, metrics, open, f)
  {
    GroupFigures(g, metrics, f);
    GroupOwed(g, open, f);
    KeyShows(g, f, f);
    hide MetricsLike, OpenLike, ValuesOf, Recognised, StillOpen, BreakdownKey, Over;
  }

  lemma {:induction false} KeysFound(entries: seq<Entry>, k: Key)
    ensures k in KeysOf(entries) <==> exists i :: 0 <= i < |entries| && entries[i].key == k
  {
    if entries != [] {
      var n := |entries| - 1;
      KeysFound(entries[..n], k);
      assert forall i {:trigger entries[i]} :: 0 <= i < n ==> entries[..n][i] == entries[i];
    }
  }

  lemma {:induction false} LineIsKey(g: GroupBy, metrics: seq<Metric>, open: seq<OpenLine>, f: Facts)
    requires IsLine(metrics, open, f)
    ensures BreakdownKey(g, f) in KeysOf(Recognised(g, metrics)) || BreakdownKey(g, f) in KeysOf(StillOpen(g, open))
  {
    var sold, due := Recognised(g, metrics), StillOpen(g, open);
    KeysFound(sold, BreakdownKey(g, f));
    KeysFound(due, BreakdownKey(g, f));
    hide BreakdownKey, KeysOf;
    if i :| 0 <= i < |metrics| && metrics[i].facts == f {
      assert sold[i].key == BreakdownKey(g, f);
    } else {
      var i :| 0 <= i < |open| && open[i].facts == f;
      assert due[i].key == BreakdownKey(g, f);
    }
  }

  lemma {:induction false} KeyIsLine(g: GroupBy, metrics: seq<Metric>, open: seq<OpenLine>, k: Key) returns (f: Facts)
    requires k in KeysOf(Recognised(g, metrics)) || k in KeysOf(StillOpen(g, open))
    ensures IsLine(metrics, open, f) && BreakdownKey(g, f) == k
  {
    var sold, due := Recognised(g, metrics), StillOpen(g, open);
    KeysFound(sold, k);
    KeysFound(due, k);
    hide BreakdownKey, KeysOf;
    if i :| 0 <= i < |sold| && sold[i].key == k {
      f := metrics[i].facts;
    } else {
      var i :| 0 <= i < |due| && due[i].key == k;
      f := open[i].facts;
    }
  }

  function KeysBefore(g: GroupBy, metrics: seq<Metric>, open: seq<OpenLine>): seq<Key> {
    MergeKeys(KeysOf(Recognised(g, metrics)), KeysOf(StillOpen(g, open)))
  }

  lemma {:induction false} KeysMerged(g: GroupBy, metrics: seq<Metric>, open: seq<OpenLine>, k: Key)
    ensures k in KeysBefore(g, metrics, open) <==> k in KeysOf(Recognised(g, metrics)) || k in KeysOf(StillOpen(g, open))
    ensures Distinct(KeysBefore(g, metrics, open))
  {
    KeysCover(Recognised(g, metrics));
    MergeCovers(KeysOf(Recognised(g, metrics)), KeysOf(StillOpen(g, open)));
    hide KeysOf, MergeKeys, Recognised, StillOpen;
  }

  lemma {:induction false} SameRows(a: seq<Row>, b: seq<Row>, r: Row)
    requires multiset(a) == multiset(b)
    ensures r in a <==> r in b
  {
    assert r in a <==> r in multiset(a);
  }

  /** The rows of distinct keys are distinct. */
  lemma {:induction false} CountedOnce(rows: seq<Row>, keys: seq<Key>, r: Row)
    requires Distinct(keys) && |rows| == |keys| && forall i {:trigger rows[i]} :: 0 <= i < |rows| ==> rows[i].key == keys[i]
    ensures r in rows ==> multiset(rows)[r] == 1
  {
    if rows != [] {
      var n := |rows| - 1;
      CountedOnce(rows[..n], keys[..n], r);
      assert rows == rows[..n] + [rows[n]];
      assert r in rows[..n] ==> r.key in keys[..n];
    }
  }

  lemma {:induction false} ListedRows(g: GroupBy, c: Collation, metrics: seq<Metric>, open: seq<OpenLine>, r: Row)
    ensures r in BreakdownRows(g, c, metrics, open) <==>
            && r.key in KeysBefore(g, metrics, open)
            && r.values == ValuesOf(Recognised(g, metrics), r.key).Plus(ValuesOf(StillOpen(g, open), r.key))
    ensures r in BreakdownRows(g, c, metrics, open) ==> multiset(BreakdownRows(g, c, metrics, open))[r] == 1
  {
    var rows := RowsOf(Recognised(g, metrics), StillOpen(g, open));
    var keys := KeysBefore(g, metrics, open);
    SortKeeps(g, c, rows);
    KeysMerged(g, metrics, open, r.key);
    SameRows(rows, BreakdownRows(g, c, metrics, open), r);
    hide SortRows, KeysOf, MergeKeys, ValuesOf, Recognised, StillOpen, Distinct;
    CountedOnce(rows, keys, r);
    if i :| 0 <= i < |keys| && keys[i] == r.key {
      assert rows[i].key == r.key;
    }
  }

  /** Every row of the breakdown is the row of some line, with the figures of exactly the lines that share its value. */
  lemma {:induction false} RowHasLine(g: GroupBy, c: Collation, metrics: seq<Metric>, open: seq<OpenLine>, r: Row) returns (f: Facts)
    requires r in BreakdownRows(g, c, metrics, open)
    ensures IsLine(metrics, open, f) && RowFor(g, r, metrics, open, f)
  {
    hide *;
    ListedRows(g, c, metrics, open, r);
    KeysMerged(g, metrics, open, r.key);
    f := KeyIsLine(g, metrics, open, r.key);
    KeyRow(g, metrics, open, r, f);
  }

  /** Every line has its row: the only one that shows the line's value, and listed once. */
  lemma {:induction false} LineHasRow(g: GroupBy, c: Collation, metrics: seq<Metric>, open: seq<OpenLine>, f: Facts) returns (r: Row)
    requires IsLine(metrics, open, f)
    ensures RowFor(g, r, metrics, open, f) && multiset(BreakdownRows(g, c, metrics, open))[r] == 1
    ensures forall other :: other in BreakdownRows(g, c, metrics, open) && Shows(g, other.key, f) ==> other == r
  {
    var k := BreakdownKey(g, f);
    r := Row(k, ValuesOf(Recognised(g, metrics), k).Plus(ValuesOf(StillOpen(g, open), k)));
    hide *;
    LineIsKey(g, metrics, open, f);
    KeysMerged(g, metrics, open, k);
    ListedRows(g, c, metrics, open, r);
    KeyRow(g, metrics, open, r, f);
    KeyShows(g, f, f);
    forall other | other in BreakdownRows(g, c, metrics, open) && Shows(g, other.key, f) ensures other == r {
      ListedRows(g, c, metrics, open, other);
      ShownHere(g, f);
      ShownOnce(g, other.key, k, f);
    }
  }

  lemma {:induction false} ShownHere(g: GroupBy, f: Facts)
    ensures Shows(g, BreakdownKey(g, f), f)
  {
  }

  // ----- The balance and the order of rows

  /** The balance sums the same figures over all lines; open amounts are split by whether a proof is under review. */
  lemma {:induction false} BalanceMeaning(metrics: seq<Metric>, open: seq<OpenLine>)
    ensures var b := SalesBalance(metrics, open);
            exists v :: Figures(v, metrics)
              && b.gross == v.gross && b.refunds == v.refund && b.net == v.gross - v.refund
              && b.knownCogs == v.cost && b.margin == v.gross - v.refund - v.cost
              && b.recognisedLines == v.lines && b.knownCostLines == v.known
    ensures var b := SalesBalance(metrics, open);
            && b.validation == Over(open, (p: OpenLine) => if p.facts.status == PurchaseValidation then p.total else 0)
            && b.pending == Over(open, (p: OpenLine) => if p.facts.status != PurchaseValidation then p.total else 0)
  {
    AllFigures(metrics);
    RecognisedTotal(ByPeriod, metrics);
    SplitByReview(open);
    hide Figures, Over;
  }

  lemma {:induction false} AllFigures(metrics: seq<Metric>)
    ensures Figures(Total(Recognised(ByPeriod, metrics)), metrics)
  {
    if metrics == [] {
      assert Recognised(ByPeriod, metrics) == [];
    } else {
      var init, last := metrics[..|metrics| - 1], metrics[|metrics| - 1];
      AllFigures(init);
      FiguresMore(Total(Recognised(ByPeriod, init)), init, last);
      RecognisedMore(ByPeriod, metrics);
      assert init + [last] == metrics;
      hide Figures, Total, Recognised;
    }
  }

  lemma {:induction false} SplitByReview(open: seq<OpenLine>)
    ensures OpenSum(open, true) == Over(open, (p: OpenLine) => if p.facts.status == PurchaseValidation then p.total else 0)
    ensures OpenSum(open, false) == Over(open, (p: OpenLine) => if p.facts.status != PurchaseValidation then p.total else 0)
  {
    if open != [] {
      SplitByReview(open[..|open| - 1]);
    }
  }

  /** Which of two rows of a breakdown comes first: the later day; otherwise the higher net, then the name, then the code. */
  lemma {:induction false} RowOrder(g: GroupBy, c: Collation, metrics: seq<Metric>, open: seq<OpenLine>, i: nat, j: nat)
    requires i < j < |BreakdownRows(g, c, metrics, open)|
    ensures var a, b := BreakdownRows(g, c, metrics, open)[i], BreakdownRows(g, c, metrics, open)[j];
            var netA, netB := a.values.gross - a.values.refund, b.values.gross - b.values.refund;
            if g == ByPeriod then a.key.period.Some? && b.key.period.Some? && a.key.period.value >= b.key.period.value
            else if netA != netB then netA > netB
            else if g == ByProduct && c.rank(a.key.name) != c.rank(b.key.name) then c.rank(a.key.name) < c.rank(b.key.name)
            else c.code(a.key) <= c.code(b.key)
  {
    var rows := BreakdownRows(g, c, metrics, open);
    var a, b := rows[i], rows[j];
    SortedRows(g, c, RowsOf(Recognised(g, metrics), StillOpen(g, open)));
    assert Precedes(g, c, a, b);
    hide BreakdownRows, Figures, Owed;
    var e := RowHasLine(g, c, metrics, open, a);
    var f := RowHasLine(g, c, metrics, open, b);
  }
}
