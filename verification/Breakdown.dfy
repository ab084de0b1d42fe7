/** The sales balance, its breakdown into rows, and the rows' pages: three views of the same lines. */
module Breakdown {
  import opened Prelude
  import opened Orders
  import opened Shop
  import opened Invariant
  import opened Refunds
  import Pagination

  type Date = int

  datatype GroupBy = ByPeriod | ByProduct | ByMethod | ByStatus

  /** What a line offers to group by. */
  datatype Facts = Facts(period: Date, product: nat, name: string, payBy: PaymentMethod, status: Status)

  /** None stands for the placeholder that the other groupings leave in a place. */
  datatype Key = Key(period: Option<Date>, product: Option<nat>, name: string, payBy: Option<PaymentMethod>, status: Option<Status>)

  function BreakdownKey(g: GroupBy, f: Facts): Key {
    match g
    case ByProduct => Key(None, Some(f.product), f.name, None, None)
    case ByMethod => Key(None, None, "", Some(f.payBy), None)
    case ByStatus => Key(None, None, "", None, Some(f.status))
    case ByPeriod => Key(Some(f.period), None, "", None, None)
  }

  /** A recognised line. */
  datatype Metric = Metric(facts: Facts, quantity: nat, gross: nat, refund: nat, unitCost: Option<nat>)

  /** A line of an active order. */
  datatype OpenLine = OpenLine(facts: Facts, total: nat)

  datatype Values = Values(quantity: int, gross: int, refund: int, cost: int, pending: int, lines: int, known: int) {
    function Plus(v: Values): Values {
      Values(quantity + v.quantity, gross + v.gross, refund + v.refund, cost + v.cost,
             pending + v.pending, lines + v.lines, known + v.known)
    }
  }

  const Nothing := Values(0, 0, 0, 0, 0, 0, 0)

  function CostOf(m: Metric): nat {
    if m.unitCost.Some? then m.unitCost.value * m.quantity else 0
  }

  function MetricValues(m: Metric): Values {
    Values(m.quantity, m.gross, m.refund, CostOf(m), 0, 1, if m.unitCost.Some? then 1 else 0)
  }

  function OpenValues(p: OpenLine): Values {
    Nothing.(pending := p.total)
  }

  datatype Entry = Entry(key: Key, values: Values)

  function Recognised(g: GroupBy, metrics: seq<Metric>): (e: seq<Entry>)
    ensures |e| == |metrics|
    ensures forall i :: 0 <= i < |e| ==> e[i] == Entry(BreakdownKey(g, metrics[i].facts), MetricValues(metrics[i]))
  {
    seq(|metrics|, i requires 0 <= i < |metrics| => Entry(BreakdownKey(g, metrics[i].facts), MetricValues(metrics[i])))
  }

  function StillOpen(g: GroupBy, open: seq<OpenLine>): (e: seq<Entry>)
    ensures |e| == |open|
    ensures forall i :: 0 <= i < |e| ==> e[i] == Entry(BreakdownKey(g, open[i].facts), OpenValues(open[i]))
  {
    seq(|open|, i requires 0 <= i < |open| => Entry(BreakdownKey(g, open[i].facts), OpenValues(open[i])))
  }

  // ----- Grouping

  function Total(entries: seq<Entry>): Values {
    if entries == [] then Nothing else Total(entries[..|entries| - 1]).Plus(entries[|entries| - 1].values)
  }

  /** What the entries under one key add up to. */
  function ValuesOf(entries: seq<Entry>, k: Key): Values {
    if entries == [] then Nothing
    else
      var last := entries[|entries| - 1];
      var earlier := ValuesOf(entries[..|entries| - 1], k);
      if last.key == k then earlier.Plus(last.values) else earlier
  }

  function AddKey(keys: seq<Key>, k: Key): seq<Key> {
    if k in keys then keys else keys + [k]
  }

  /** The keys in order of first occurrence, as a dictionary keeps them. */
  function KeysOf(entries: seq<Entry>): seq<Key> {
    if entries == [] then [] else AddKey(KeysOf(entries[..|entries| - 1]), entries[|entries| - 1].key)
  }

  function MergeKeys(keys: seq<Key>, more: seq<Key>): seq<Key> {
    if more == [] then keys else AddKey(MergeKeys(keys, more[..|more| - 1]), more[|more| - 1])
  }

  datatype Row = Row(key: Key, values: Values) {
    function Net(): int { values.gross - values.refund }
  }

  ghost predicate Distinct(keys: seq<Key>) {
    forall i, j :: 0 <= i < j < |keys| ==> keys[i] != keys[j]
  }

  function RowsFor(keys: seq<Key>, recognised: seq<Entry>, open: seq<Entry>): (r: seq<Row>)
    ensures |r| == |keys|
    ensures forall i :: 0 <= i < |r| ==> r[i] == Row(keys[i], ValuesOf(recognised, keys[i]).Plus(ValuesOf(open, keys[i])))
  {
    seq(|keys|, i requires 0 <= i < |keys| => Row(keys[i], ValuesOf(recognised, keys[i]).Plus(ValuesOf(open, keys[i]))))
  }

  /** The breakdown before sorting. */
  function RowsOf(recognised: seq<Entry>, open: seq<Entry>): seq<Row> {
    RowsFor(MergeKeys(KeysOf(recognised), KeysOf(open)), recognised, open)
  }

  function SumRows(rows: seq<Row>): Values {
    if rows == [] then Nothing else SumRows(rows[..|rows| - 1]).Plus(rows[|rows| - 1].values)
  }

  function SumKeys(entries: seq<Entry>, keys: seq<Key>): Values {
    if keys == [] then Nothing else SumKeys(entries, keys[..|keys| - 1]).Plus(ValuesOf(entries, keys[|keys| - 1]))
  }

  // ----- Rows partition the lines

  lemma {:induction false} SumKeysMore(entries: seq<Entry>, e: Entry, keys: seq<Key>)
    requires Distinct(keys)
    ensures SumKeys(entries + [e], keys) ==
            if e.key in keys then SumKeys(entries, keys).Plus(e.values) else SumKeys(entries, keys)
  {
    if keys != [] {
      var init := keys[..|keys| - 1];
      var last := keys[|keys| - 1];
      SumKeysMore(entries, e, init);
      assert (entries + [e])[..|entries|] == entries;
      assert keys == init + [last];
      assert last !in init;
    }
  }

  lemma {:induction false} SumKeysNone(keys: seq<Key>)
    ensures SumKeys([], keys) == Nothing
  {
    if keys != [] {
      SumKeysNone(keys[..|keys| - 1]);
    }
  }

  /** Over any distinct keys that cover the entries, the groups add up to the whole. */
  lemma {:induction false} GroupsPartition(entries: seq<Entry>, keys: seq<Key>)
    requires Distinct(keys) && forall i {:trigger entries[i]} :: 0 <= i < |entries| ==> entries[i].key in keys
    ensures SumKeys(entries, keys) == Total(entries)
  {
    if entries == [] {
      SumKeysNone(keys);
    } else {
      var init := entries[..|entries| - 1];
      var last := entries[|entries| - 1];
      assert entries == init + [last];
      GroupsPartition(init, keys);
      SumKeysMore(init, last, keys);
    }
  }

  lemma {:induction false} PlusSwaps(a: Values, b: Values, c: Values, d: Values)
    ensures a.Plus(b).Plus(c.Plus(d)) == a.Plus(c).Plus(b.Plus(d))
  {
  }

  lemma {:induction false} RowsForMore(keys: seq<Key>, recognised: seq<Entry>, open: seq<Entry>)
    requires keys != []
    ensures RowsFor(keys, recognised, open)[..|keys| - 1] == RowsFor(keys[..|keys| - 1], recognised, open)
  {
    hide ValuesOf, Values.Plus;
  }

  lemma {:induction false} SumKeysLast(entries: seq<Entry>, keys: seq<Key>)
    requires keys != []
    ensures SumKeys(entries, keys) == SumKeys(entries, keys[..|keys| - 1]).Plus(ValuesOf(entries, keys[|keys| - 1]))
  {
    hide ValuesOf, Values.Plus;
  }

  lemma {:induction false} SumRowsLast(rows: seq<Row>)
    requires rows != []
    ensures SumRows(rows) == SumRows(rows[..|rows| - 1]).Plus(rows[|rows| - 1].values)
  {
    hide Values.Plus;
  }

  lemma {:induction false} NoRows(recognised: seq<Entry>, open: seq<Entry>)
    ensures SumRows(RowsFor([], recognised, open)) == SumKeys(recognised, []).Plus(SumKeys(open, []))
  {
    assert RowsFor([], recognised, open) == [];
  }

  lemma {:induction false} SumRowsFor(keys: seq<Key>, recognised: seq<Entry>, open: seq<Entry>)
    ensures SumRows(RowsFor(keys, recognised, open)) == SumKeys(recognised, keys).Plus(SumKeys(open, keys))
  {
    hide *;
    if keys == [] {
      NoRows(recognised, open);
    } else {
      var init := keys[..|keys| - 1];
      var last := keys[|keys| - 1];
      SumRowsFor(init, recognised, open);
      RowsForMore(keys, recognised, open);
      SumRowsLast(RowsFor(keys, recognised, open));
      SumKeysLast(recognised, keys);
      SumKeysLast(open, keys);
      PlusSwaps(SumKeys(recognised, init), SumKeys(open, init), ValuesOf(recognised, last), ValuesOf(open, last));
    }
  }

  lemma {:induction false} KeysCover(entries: seq<Entry>)
    ensures Distinct(KeysOf(entries))
    ensures forall i {:trigger entries[i]} :: 0 <= i < |entries| ==> entries[i].key in KeysOf(entries)
  {
    if entries != [] {
      var init := entries[..|entries| - 1];
      KeysCover(init);
      assert forall i {:trigger entries[i]} :: 0 <= i < |init| ==> entries[i] == init[i];
    }
  }

  lemma {:induction false} MergeCovers(keys: seq<Key>, more: seq<Key>)
    requires Distinct(keys)
    ensures Distinct(MergeKeys(keys, more))
    ensures forall k :: k in MergeKeys(keys, more) <==> k in keys || k in more
  {
    if more != [] {
      MergeCovers(keys, more[..|more| - 1]);
      assert more == more[..|more| - 1] + [more[|more| - 1]];
    }
  }

  /** Every row has its own key, and the rows add up to all lines, recognised and open. */
  lemma {:induction false} RowsPartition(recognised: seq<Entry>, open: seq<Entry>)
    ensures SumRows(RowsOf(recognised, open)) == Total(recognised).Plus(Total(open))
    ensures Distinct(MergeKeys(KeysOf(recognised), KeysOf(open)))
  {
    var keys := MergeKeys(KeysOf(recognised), KeysOf(open));
    KeysCover(recognised);
    KeysCover(open);
    MergeCovers(KeysOf(recognised), KeysOf(open));
    GroupsPartition(recognised, keys);
    GroupsPartition(open, keys);
    SumRowsFor(keys, recognised, open);
  }

  // ----- The balance, summed on its own

  function GrossSum(metrics: seq<Metric>): nat {
    if metrics == [] then 0 else GrossSum(metrics[..|metrics| - 1]) + metrics[|metrics| - 1].gross
  }

  function RefundSum(metrics: seq<Metric>): nat {
    if metrics == [] then 0 else RefundSum(metrics[..|metrics| - 1]) + metrics[|metrics| - 1].refund
  }

  /** Lines whose cost is known, and what they cost. */
  function KnownLines(metrics: seq<Metric>): nat {
    if metrics == [] then 0
    else KnownLines(metrics[..|metrics| - 1]) + (if metrics[|metrics| - 1].unitCost.Some? then 1 else 0)
  }

  function KnownCost(metrics: seq<Metric>): nat {
    if metrics == [] then 0
    else
      var last := metrics[|metrics| - 1];
      KnownCost(metrics[..|metrics| - 1]) + (if last.unitCost.Some? then last.unitCost.value * last.quantity else 0)
  }

  datatype Balance = Balance(
    gross: int, refunds: int, net: int, knownCogs: int, margin: int,
    pending: int, validation: int, recognisedLines: int, knownCostLines: int)

  function OpenSum(open: seq<OpenLine>, underReview: bool): nat {
    if open == [] then 0
    else
      var last := open[|open| - 1];
      OpenSum(open[..|open| - 1], underReview)
      + (if (last.facts.status == PurchaseValidation) == underReview then last.total else 0)
  }

  function SalesBalance(metrics: seq<Metric>, open: seq<OpenLine>): Balance {
    var gross, refunds, cogs := GrossSum(metrics), RefundSum(metrics), KnownCost(metrics);
    Balance(gross, refunds, gross - refunds, cogs, gross - refunds - cogs,
            OpenSum(open, false), OpenSum(open, true), |metrics|, KnownLines(metrics))
  }

  /** The loop over the open lines. */
  method PendingAmounts(open: seq<OpenLine>) returns (pending: nat, validation: nat)
    ensures pending == OpenSum(open, false) && validation == OpenSum(open, true)
  {
    pending, validation := 0, 0;
    for i := 0 to |open|
      invariant pending == OpenSum(open[..i], false) && validation == OpenSum(open[..i], true)
    {
      assert open[..i + 1][..i] == open[..i];
      if open[i].facts.status == PurchaseValidation {
        validation := validation + open[i].total;
      } else {
        pending := pending + open[i].total;
      }
    }
    assert open[..|open|] == open;
  }

  lemma {:induction false} RecognisedMore(g: GroupBy, metrics: seq<Metric>)
    requires metrics != []
    ensures Total(Recognised(g, metrics)) ==
            Total(Recognised(g, metrics[..|metrics| - 1])).Plus(MetricValues(metrics[|metrics| - 1]))
  {
    assert Recognised(g, metrics)[..|metrics| - 1] == Recognised(g, metrics[..|metrics| - 1]);
    hide MetricValues, Values.Plus, BreakdownKey;
  }

  lemma {:induction false} RecognisedTotal(g: GroupBy, metrics: seq<Metric>)
    ensures var t := Total(Recognised(g, metrics));
            && t.gross == GrossSum(metrics) && t.refund == RefundSum(metrics) && t.cost == KnownCost(metrics)
            && t.lines == |metrics| && t.known == KnownLines(metrics) && t.pending == 0
  {
    if metrics == [] {
      assert Recognised(g, metrics) == [];
    } else {
      RecognisedTotal(g, metrics[..|metrics| - 1]);
      RecognisedMore(g, metrics);
      hide Total, Recognised;
    }
  }

  lemma {:induction false} OpenTotal(g: GroupBy, open: seq<OpenLine>)
    ensures Total(StillOpen(g, open)) == Nothing.(pending := OpenSum(open, false) + OpenSum(open, true))
  {
    if open != [] {
      var init := open[..|open| - 1];
      OpenTotal(g, init);
      assert StillOpen(g, open)[..|open| - 1] == StillOpen(g, init);
    }
  }

  // ----- Sorting

  /** The order of rows; `rank` is the database-independent order of folded names, `code` that of method and status words. */
  datatype Collation = Collation(rank: string -> int, code: Key -> int)

  predicate Precedes(g: GroupBy, c: Collation, a: Row, b: Row) {
    match g
    case ByPeriod => (if a.key.period.Some? then a.key.period.value else 0) >= (if b.key.period.Some? then b.key.period.value else 0)
    case ByProduct =>
      || a.Net() > b.Net()
      || (a.Net() == b.Net() && c.rank(a.key.name) < c.rank(b.key.name))
      || (a.Net() == b.Net() && c.rank(a.key.name) == c.rank(b.key.name) && c.code(a.key) <= c.code(b.key))
    case _ => a.Net() > b.Net() || (a.Net() == b.Net() && c.code(a.key) <= c.code(b.key))
  }

  /** Stable insertion from the back. */
  function InsertRow(g: GroupBy, c: Collation, s: seq<Row>, x: Row): seq<Row> {
    if s == [] then [x]
    else if Precedes(g, c, s[|s| - 1], x) then s + [x]
    else InsertRow(g, c, s[..|s| - 1], x) + [s[|s| - 1]]
  }

  function SortRows(g: GroupBy, c: Collation, rows: seq<Row>): seq<Row> {
    if rows == [] then [] else InsertRow(g, c, SortRows(g, c, rows[..|rows| - 1]), rows[|rows| - 1])
  }

  lemma {:induction false} SumRowsMore(s: seq<Row>, x: Row)
    ensures SumRows(s + [x]) == SumRows(s).Plus(x.values)
  {
    assert (s + [x])[..|s|] == s;
  }

  lemma {:induction false} InsertRowSum(g: GroupBy, c: Collation, s: seq<Row>, x: Row)
    ensures SumRows(InsertRow(g, c, s, x)) == SumRows(s).Plus(x.values)
  {
    hide Precedes, SumRows;
    SumRowsMore(s, x);
    if s == [] {
      assert s + [x] == [x];
    } else if !Precedes(g, c, s[|s| - 1], x) {
      var init := s[..|s| - 1];
      InsertRowSum(g, c, init, x);
      SumRowsMore(InsertRow(g, c, init, x), s[|s| - 1]);
      SumRowsMore(init, s[|s| - 1]);
      assert s == init + [s[|s| - 1]];
    }
  }

  lemma {:induction false} InsertRowContents(g: GroupBy, c: Collation, s: seq<Row>, x: Row)
    ensures multiset(InsertRow(g, c, s, x)) == multiset(s) + multiset{x}
  {
    hide Precedes;
    if s != [] && !Precedes(g, c, s[|s| - 1], x) {
      var init := s[..|s| - 1];
      InsertRowContents(g, c, init, x);
      assert s == init + [s[|s| - 1]];
    }
  }

  lemma {:induction false} SortIs(g: GroupBy, c: Collation, rows: seq<Row>)
    requires rows != []
    ensures SortRows(g, c, rows) == InsertRow(g, c, SortRows(g, c, rows[..|rows| - 1]), rows[|rows| - 1])
  {
    hide InsertRow;
  }

  /** Sorting moves rows about and changes none. */
  lemma {:induction false} SortKeeps(g: GroupBy, c: Collation, rows: seq<Row>)
    ensures SumRows(SortRows(g, c, rows)) == SumRows(rows)
    ensures multiset(SortRows(g, c, rows)) == multiset(rows)
  {
    hide InsertRow, SumRows, Values.Plus;
    if rows != [] {
      hide *;
      var init := rows[..|rows| - 1];
      var last := rows[|rows| - 1];
      SortKeeps(g, c, init);
      SortIs(g, c, rows);
      InsertRowSum(g, c, SortRows(g, c, init), last);
      InsertRowContents(g, c, SortRows(g, c, init), last);
      SumRowsLast(rows);
      assert rows == init + [last];
    }
  }

  ghost predicate InOrder(g: GroupBy, c: Collation, s: seq<Row>) {
    forall i, j :: 0 <= i < j < |s| ==> Precedes(g, c, s[i], s[j])
  }

  lemma {:induction false} PrecedesTransitive(g: GroupBy, c: Collation, a: Row, b: Row, d: Row)
    requires Precedes(g, c, a, b) && Precedes(g, c, b, d)
    ensures Precedes(g, c, a, d)
  {
  }

  lemma {:induction false} PrecedesTotal(g: GroupBy, c: Collation, a: Row, b: Row)
    ensures Precedes(g, c, a, b) || Precedes(g, c, b, a)
  {
  }

  lemma {:induction false} AppendInOrder(g: GroupBy, c: Collation, s: seq<Row>, x: Row)
    requires InOrder(g, c, s) && forall i {:trigger s[i]} :: 0 <= i < |s| ==> Precedes(g, c, s[i], x)
    ensures InOrder(g, c, s + [x])
  {
    hide Precedes;
  }

  lemma {:induction false} InsertInOrder(g: GroupBy, c: Collation, s: seq<Row>, x: Row)
    requires InOrder(g, c, s)
    ensures InOrder(g, c, InsertRow(g, c, s, x))
  {
    hide Precedes;
    if s != [] {
      var last := s[|s| - 1];
      var init := s[..|s| - 1];
      if Precedes(g, c, last, x) {
        forall i {:trigger s[i]} | 0 <= i < |s| ensures Precedes(g, c, s[i], x) {
          if i < |s| - 1 {
            PrecedesTransitive(g, c, s[i], last, x);
          }
        }
        AppendInOrder(g, c, s, x);
      } else {
        InsertInOrder(g, c, init, x);
        InsertRowContents(g, c, init, x);
        PrecedesTotal(g, c, x, last);
        var r := InsertRow(g, c, init, x);
        forall i {:trigger r[i]} | 0 <= i < |r| ensures Precedes(g, c, r[i], last) {
          assert r[i] in multiset(r);
          if r[i] != x {
            var k :| 0 <= k < |init| && init[k] == r[i];
            assert s[k] == r[i];
          }
        }
        AppendInOrder(g, c, r, last);
      }
    }
  }

  lemma {:induction false} SortedRows(g: GroupBy, c: Collation, rows: seq<Row>)
    ensures InOrder(g, c, SortRows(g, c, rows))
  {
    hide Precedes;
    if rows != [] {
      SortedRows(g, c, rows[..|rows| - 1]);
      InsertInOrder(g, c, SortRows(g, c, rows[..|rows| - 1]), rows[|rows| - 1]);
    }
  }

  // ----- Balance and breakdown agree

  function BreakdownRows(g: GroupBy, c: Collation, metrics: seq<Metric>, open: seq<OpenLine>): seq<Row> {
    SortRows(g, c, RowsOf(Recognised(g, metrics), StillOpen(g, open)))
  }

  /** For every grouping, the rows of the breakdown add up to the balance, figure by figure. */
  lemma {:induction false} BreakdownAddsUp(g: GroupBy, c: Collation, metrics: seq<Metric>, open: seq<OpenLine>)
    ensures var sum := SumRows(BreakdownRows(g, c, metrics, open));
            var b := SalesBalance(metrics, open);
            && sum.gross == b.gross
            && sum.refund == b.refunds
            && sum.gross - sum.refund == b.net
            && sum.cost == b.knownCogs
            && sum.gross - sum.refund - sum.cost == b.margin
            && sum.lines == b.recognisedLines
            && sum.known == b.knownCostLines
            && sum.pending == b.pending + b.validation
  {
    RowsPartition(Recognised(g, metrics), StillOpen(g, open));
    SortKeeps(g, c, RowsOf(Recognised(g, metrics), StillOpen(g, open)));
    RecognisedTotal(g, metrics);
    OpenTotal(g, open);
    hide SortRows, RowsOf, Total, Recognised, StillOpen, SumRows, GrossSum, RefundSum, KnownCost, KnownLines, OpenSum;
  }

  // ----- The grouping loops

  lemma {:induction false} ValuesOfAbsent(entries: seq<Entry>, k: Key)
    requires k !in KeysOf(entries)
    ensures ValuesOf(entries, k) == Nothing
  {
    if entries != [] {
      ValuesOfAbsent(entries[..|entries| - 1], k);
    }
  }

  /** Dictionary contents: the keys seen so far and what each adds up to. */
  ghost predicate Groups(entries: seq<Entry>, keys: seq<Key>, grouped: map<Key, Values>) {
    && keys == KeysOf(entries)
    && (forall k :: k in grouped <==> k in keys)
    && (forall k {:trigger grouped[k]} :: k in grouped ==> grouped[k] == ValuesOf(entries, k))
  }

  lemma {:induction false} GroupsMore(entries: seq<Entry>, e: Entry, keys: seq<Key>, grouped: map<Key, Values>)
    requires Groups(entries, keys, grouped)
    ensures var earlier := if e.key in grouped then grouped[e.key] else Nothing;
            Groups(entries + [e], AddKey(keys, e.key), grouped[e.key := earlier.Plus(e.values)])
  {
    assert (entries + [e])[..|entries|] == entries;
    if e.key !in grouped {
      ValuesOfAbsent(entries, e.key);
    }
    hide Values.Plus;
  }

  method GroupMetrics(g: GroupBy, metrics: seq<Metric>) returns (keys: seq<Key>, grouped: map<Key, Values>)
    ensures Groups(Recognised(g, metrics), keys, grouped)
  {
    hide Groups, BreakdownKey;
    keys, grouped := [], map[];
    NoGroups(g, metrics);
    for i := 0 to |metrics|
      invariant Groups(Recognised(g, metrics)[..i], keys, grouped)
    {
      var m := metrics[i];
      var key := BreakdownKey(g, m.facts);
      GroupsMore(Recognised(g, metrics)[..i], Recognised(g, metrics)[i], keys, grouped);
      assert Recognised(g, metrics)[..i + 1] == Recognised(g, metrics)[..i] + [Recognised(g, metrics)[i]];
      var values := if key in grouped then grouped[key] else Nothing;
      values := values.(quantity := values.quantity + m.quantity);
      values := values.(gross := values.gross + m.gross);
      values := values.(refund := values.refund + m.refund);
      values := values.(lines := values.lines + 1);
      if m.unitCost.Some? {
        values := values.(known := values.known + 1);
        values := values.(cost := values.cost + m.unitCost.value * m.quantity);
      }
      keys := AddKey(keys, key);
      grouped := grouped[key := values];
    }
    assert Recognised(g, metrics)[..|metrics|] == Recognised(g, metrics);
  }

  lemma {:induction false} NoGroups(g: GroupBy, metrics: seq<Metric>)
    ensures Groups(Recognised(g, metrics)[..0], [], map[])
    ensures Groups([], [], map[])
  {
    assert Recognised(g, metrics)[..0] == [];
  }

  /** Open amounts by key. */
  method PendingBuckets(g: GroupBy, open: seq<OpenLine>) returns (keys: seq<Key>, buckets: map<Key, Values>)
    ensures Groups(StillOpen(g, open), keys, buckets)
  {
    hide Groups, BreakdownKey;
    keys, buckets := [], map[];
    NoGroups(g, []);
    assert StillOpen(g, open)[..0] == [];
    for i := 0 to |open|
      invariant Groups(StillOpen(g, open)[..i], keys, buckets)
    {
      var key := BreakdownKey(g, open[i].facts);
      GroupsMore(StillOpen(g, open)[..i], StillOpen(g, open)[i], keys, buckets);
      assert StillOpen(g, open)[..i + 1] == StillOpen(g, open)[..i] + [StillOpen(g, open)[i]];
      var bucket := if key in buckets then buckets[key] else Nothing;
      keys := AddKey(keys, key);
      buckets := buckets[key := bucket.(pending := bucket.pending + open[i].total)];
    }
    assert StillOpen(g, open)[..|open|] == StillOpen(g, open);
  }

  lemma {:induction false} BucketsHoldPending(g: GroupBy, open: seq<OpenLine>, k: Key)
    ensures ValuesOf(StillOpen(g, open), k) == Nothing.(pending := ValuesOf(StillOpen(g, open), k).pending)
  {
    if open != [] {
      var init := open[..|open| - 1];
      BucketsHoldPending(g, init, k);
      assert StillOpen(g, open)[..|open| - 1] == StillOpen(g, init);
    }
  }

  /** Recognised groups with the first buckets added in. */
  ghost predicate Merged(recognised: seq<Entry>, open: seq<Entry>, more: seq<Key>, keys: seq<Key>, grouped: map<Key, Values>) {
    && keys == MergeKeys(KeysOf(recognised), more)
    && (forall k :: k in grouped <==> k in keys)
    && (forall k {:trigger grouped[k]} :: k in grouped ==>
          grouped[k] == ValuesOf(recognised, k).Plus(if k in more then ValuesOf(open, k) else Nothing))
  }

  lemma {:induction false} MergedNone(recognised: seq<Entry>, open: seq<Entry>, keys: seq<Key>, grouped: map<Key, Values>)
    requires Groups(recognised, keys, grouped)
    ensures Merged(recognised, open, [], keys, grouped)
  {
  }

  lemma {:induction false} MergedMore(recognised: seq<Entry>, open: seq<Entry>, more: seq<Key>, k: Key, keys: seq<Key>, grouped: map<Key, Values>)
    requires Merged(recognised, open, more, keys, grouped) && k !in more
    ensures var earlier := if k in grouped then grouped[k] else Nothing;
            Merged(recognised, open, more + [k], AddKey(keys, k), grouped[k := earlier.Plus(ValuesOf(open, k))])
  {
    hide MergeKeys, KeysOf, ValuesOf, Values.Plus;
    MergedKeys(recognised, more, k);
    var earlier := if k in grouped then grouped[k] else Nothing;
    var after := grouped[k := earlier.Plus(ValuesOf(open, k))];
    assert k !in grouped ==> ValuesOf(recognised, k) == Nothing by {
      if k !in grouped {
        ValuesOfAbsent(recognised, k);
      }
    }
    PlusNothing(ValuesOf(recognised, k));
    forall x {:trigger after[x]} | x in after
      ensures after[x] == ValuesOf(recognised, x).Plus(if x in more + [k] then ValuesOf(open, x) else Nothing)
    {
      assert x != k ==> (x in more + [k] <==> x in more) && after[x] == grouped[x];
    }
  }

  lemma {:induction false} PlusNothing(v: Values)
    ensures v.Plus(Nothing) == v
  {
  }

  lemma {:induction false} MergedKeys(recognised: seq<Entry>, more: seq<Key>, k: Key)
    ensures k !in MergeKeys(KeysOf(recognised), more) ==> k !in KeysOf(recognised)
    ensures MergeKeys(KeysOf(recognised), more + [k]) == AddKey(MergeKeys(KeysOf(recognised), more), k)
  {
    KeysCover(recognised);
    MergeCovers(KeysOf(recognised), more);
    assert (more + [k])[..|more|] == more;
  }

  lemma {:induction false} MergedAll(recognised: seq<Entry>, open: seq<Entry>, keys: seq<Key>, grouped: map<Key, Values>)
    requires Merged(recognised, open, KeysOf(open), keys, grouped)
    ensures forall k :: k in keys ==> k in grouped
    ensures forall k {:trigger grouped[k]} :: k in grouped ==> grouped[k] == ValuesOf(recognised, k).Plus(ValuesOf(open, k))
  {
    forall k | k in grouped ensures grouped[k] == ValuesOf(recognised, k).Plus(ValuesOf(open, k)) {
      if k !in KeysOf(open) {
        ValuesOfAbsent(open, k);
      }
    }
  }

  /** Grouping, merging and sorting as the program does it give the breakdown rows. */
  method SalesBreakdown(g: GroupBy, c: Collation, metrics: seq<Metric>, open: seq<OpenLine>) returns (rows: seq<Row>)
    ensures rows == BreakdownRows(g, c, metrics, open)
  {
    hide Merged, Groups, Recognised, StillOpen, SortRows;
    ghost var recognised, stillOpen := Recognised(g, metrics), StillOpen(g, open);
    var keys, grouped := GroupMetrics(g, metrics);
    var more, buckets := PendingBuckets(g, open);
    MergedNone(recognised, stillOpen, keys, grouped);
    assert more[..0] == [];
    for i := 0 to |more|
      invariant Merged(recognised, stillOpen, more[..i], keys, grouped)
    {
      var k := more[i];
      BucketAt(g, open, more, buckets, i);
      MergedMore(recognised, stillOpen, more[..i], k, keys, grouped);
      assert more[..i + 1] == more[..i] + [k];
      var values := if k in grouped then grouped[k] else Nothing;
      keys := AddKey(keys, k);
      grouped := grouped[k := values.(pending := values.pending + buckets[k].pending)];
    }
    assert more[..|more|] == more;
    BucketKeys(g, open, more, buckets);
    MergedAll(recognised, stillOpen, keys, grouped);
    var unsorted := [];
    for i := 0 to |keys|
      invariant unsorted == RowsFor(keys, recognised, stillOpen)[..i]
    {
      assert keys[i] in keys;
      unsorted := unsorted + [Row(keys[i], grouped[keys[i]])];
    }
    MergedOrder(recognised, stillOpen, keys, grouped);
    return SortRows(g, c, unsorted);
  }

  lemma {:induction false} MergedOrder(recognised: seq<Entry>, open: seq<Entry>, keys: seq<Key>, grouped: map<Key, Values>)
    requires Merged(recognised, open, KeysOf(open), keys, grouped)
    ensures RowsFor(keys, recognised, open)[..|keys|] == RowsOf(recognised, open)
  {
  }

  lemma {:induction false} BucketKeys(g: GroupBy, open: seq<OpenLine>, more: seq<Key>, buckets: map<Key, Values>)
    requires Groups(StillOpen(g, open), more, buckets)
    ensures more == KeysOf(StillOpen(g, open))
  {
  }

  lemma {:induction false} BucketAt(g: GroupBy, open: seq<OpenLine>, more: seq<Key>, buckets: map<Key, Values>, i: nat)
    requires i < |more| && Groups(StillOpen(g, open), more, buckets)
    ensures more[i] in buckets && more[i] !in more[..i]
    ensures ValuesOf(StillOpen(g, open), more[i]) == Nothing.(pending := buckets[more[i]].pending)
  {
    assert more[i] in more;
    KeysCover(StillOpen(g, open));
    BucketsHoldPending(g, open, more[i]);
  }

  // ----- Pages of the breakdown

  datatype RowPage = RowPage(items: seq<Row>, hasNext: bool, endCursor: string, total: nat)

  /** The cursor of a breakdown page carries a printed date, which is ignored, and a position. */
  function BreakdownPage(rows: seq<Row>, show: Row -> string, after: string, first: Option<int>): Result<RowPage> {
    var size :- Pagination.CleanPageSize(first);
    var start :- StartOf(rows, after);
    var window := rows[start..Min(start + size + 1, |rows|)];
    var items := if |window| > size then window[..size] else window;
    var endCursor := if items == [] then ""
                     else Pagination.EncodeCursor(Some(show(items[|items| - 1])), start + |items|);
    Ok(RowPage(items, |window| > size, endCursor, |rows|))
  }

  function StartOf(rows: seq<Row>, after: string): (r: Result<nat>)
    ensures r.Ok? ==> r.value <= |rows|
  {
    if after == "" then Ok(0)
    else
      var c :- Pagination.DecodeCursor(after);
      if c.1 > |rows| then Err(InvalidCursor) else Ok(c.1)
  }

  lemma {:induction false} StartAtCursor(rows: seq<Row>, value: string, n: nat)
    requires n <= |rows|
    ensures StartOf(rows, Pagination.EncodeCursor(Some(value), n)) == Ok(n)
  {
    Pagination.CursorRoundTrip(Some(value), n);
  }

  function RowWalk(rows: seq<Row>, show: Row -> string, after: string, first: Option<int>, n: nat): seq<RowPage>
    decreases n
  {
    if n == 0 then []
    else
      var p := BreakdownPage(rows, show, after, first);
      if p.Err? then []
      else if !p.value.hasNext then [p.value]
      else [p.value] + RowWalk(rows, show, p.value.endCursor, first, n - 1)
  }

  function PageItems(pages: seq<RowPage>): seq<Row> {
    if pages == [] then [] else pages[0].items + PageItems(pages[1..])
  }

  lemma {:induction false} PageAt(rows: seq<Row>, show: Row -> string, after: string, first: Option<int>, start: nat, size: nat) returns (p: RowPage)
    requires Pagination.CleanPageSize(first) == Ok(size) && size > 0 && StartOf(rows, after) == Ok(start)
    ensures BreakdownPage(rows, show, after, first) == Ok(p)
    ensures p.items == rows[start..Min(start + size, |rows|)] && (p.hasNext <==> start + size < |rows|) && p.total == |rows|
    ensures if p.hasNext then p.items == rows[start..start + size] else p.items == rows[start..]
    ensures p.hasNext ==> p.items != [] && p.endCursor == Pagination.EncodeCursor(Some(show(p.items[|p.items| - 1])), start + size)
    ensures p.hasNext ==> StartOf(rows, p.endCursor) == Ok(start + size)
  {
    hide Pagination.CleanPageSize, StartOf, Pagination.EncodeCursor;
    p := BreakdownPage(rows, show, after, first).value;
    Window(rows, start, size);
    hide BreakdownPage;
    if p.hasNext {
      StartAtCursor(rows, show(p.items[|p.items| - 1]), start + size);
    }
  }

  lemma {:induction false} Window(rows: seq<Row>, start: nat, size: nat)
    requires start <= |rows|
    ensures var window := rows[start..Min(start + size + 1, |rows|)];
            && (|window| > size <==> start + size < |rows|)
            && (if |window| > size then window[..size] else window) == rows[start..Min(start + size, |rows|)]
  {
  }

  lemma {:induction false} RowWalkNext(rows: seq<Row>, show: Row -> string, after: string, first: Option<int>, n: nat, p: RowPage)
    requires n > 0 && BreakdownPage(rows, show, after, first) == Ok(p)
    ensures RowWalk(rows, show, after, first, n) ==
            if p.hasNext then [p] + RowWalk(rows, show, p.endCursor, first, n - 1) else [p]
  {
    hide BreakdownPage;
  }

  lemma {:induction false} PageItemsMore(p: RowPage, rest: seq<RowPage>)
    ensures PageItems([p] + rest) == p.items + PageItems(rest) && PageItems([p]) == p.items
  {
    assert ([p] + rest)[1..] == rest && [p][1..] == [];
  }

  /** The pages hold the rows from position `start` on, in as few pages as their size allows. */
  ghost predicate Paged(rows: seq<Row>, pages: seq<RowPage>, start: nat, size: nat) {
    && size > 0 && start <= |rows|
    && PageItems(pages) == rows[start..]
    && |pages| == Pagination.PageCount(|rows| - start, size)
    && (forall i :: 0 <= i < |pages| ==> pages[i].total == |rows| && |pages[i].items| <= size)
  }

  lemma {:induction false} PagedMore(rows: seq<Row>, p: RowPage, rest: seq<RowPage>, start: nat, size: nat)
    requires Paged(rows, rest, start + size, size) && size > 0 && p.items == rows[start..start + size]
    requires start + size < |rows| && p.total == |rows|
    ensures Paged(rows, [p] + rest, start, size)
  {
    hide Pagination.PageCount, PageItems;
    Pagination.CountStep(|rows| - start, size);
    PageItemsMore(p, rest);
    Splice(rows, start, start + size);
  }

  lemma {:induction false} PagedLast(rows: seq<Row>, p: RowPage, start: nat, size: nat)
    requires size > 0 && start <= |rows| <= start + size && p.items == rows[start..] && p.total == |rows|
    ensures Paged(rows, [p], start, size)
  {
    hide Pagination.PageCount, PageItems;
    Pagination.CountLast(|rows| - start, size);
    PageItemsMore(p, []);
  }

  lemma {:induction false} RowWalkRest(rows: seq<Row>, show: Row -> string, after: string, first: Option<int>, n: nat, start: nat, size: nat)
    requires Pagination.CleanPageSize(first) == Ok(size) && size > 0 && StartOf(rows, after) == Ok(start) && start <= |rows|
    requires n >= Pagination.PageCount(|rows| - start, size)
    ensures Paged(rows, RowWalk(rows, show, after, first, n), start, size)
    decreases n
  {
    hide *;
    Pagination.PageCountPositive(|rows| - start, size);
    var p := PageAt(rows, show, after, first, start, size);
    RowWalkNext(rows, show, after, first, n, p);
    if p.hasNext {
      Pagination.CountStep(|rows| - start, size);
      RowWalkRest(rows, show, p.endCursor, first, n - 1, start + size, size);
      PagedMore(rows, p, RowWalk(rows, show, p.endCursor, first, n - 1), start, size);
    } else {
      PagedLast(rows, p, start, size);
    }
  }

  /** Paging through the breakdown visits every row once, in order, in max(1, ceil(n / size)) pages. */
  lemma {:induction false} RowWalkListsAll(rows: seq<Row>, show: Row -> string, first: Option<int>, n: nat)
    requires Pagination.CleanPageSize(first).Ok?
    requires n >= Pagination.PageCount(|rows|, Pagination.CleanPageSize(first).value)
    ensures PageItems(RowWalk(rows, show, "", first, n)) == rows
    ensures |RowWalk(rows, show, "", first, n)| == Pagination.PageCount(|rows|, Pagination.CleanPageSize(first).value)
    ensures forall i :: 0 <= i < |RowWalk(rows, show, "", first, n)| ==>
              && RowWalk(rows, show, "", first, n)[i].total == |rows|
              && |RowWalk(rows, show, "", first, n)[i].items| <= Pagination.CleanPageSize(first).value
  {
    hide RowWalk, Pagination.PageCount, PageItems;
    RowWalkRest(rows, show, "", first, n, 0, Pagination.CleanPageSize(first).value);
    assert rows[0..] == rows;
  }

  // ----- The lines of paid orders

  function Prices(lines: seq<Line>): (g: seq<nat>)
    ensures |g| == |lines| && forall i :: 0 <= i < |g| ==> g[i] == lines[i].LineTotal()
  {
    seq(|lines|, i requires 0 <= i < |lines| => lines[i].LineTotal())
  }

  function RefundedOf(o: Order): int {
    if o.payment.Some? then o.payment.value.refundedAmount else 0
  }

  /** The recognised lines of a paid or refunded order. */
  function OrderMetrics(o: Order, period: Date, names: nat -> string): (m: seq<Metric>)
    ensures |m| == |o.lines|
    ensures forall i :: 0 <= i < |m| ==>
              && m[i].gross == o.lines[i].LineTotal()
              && m[i].refund == Allocation(RefundedOf(o), Prices(o.lines))[i]
  {
    var shares := Allocation(RefundedOf(o), Prices(o.lines));
    seq(|o.lines|, i requires 0 <= i < |o.lines| =>
                     Metric(Facts(period, o.lines[i].product, names(o.lines[i].product), o.paymentMethod, o.status),
                            o.lines[i].quantity, o.lines[i].LineTotal(), shares[i], o.lines[i].unitCost))
  }

  lemma {:induction false} PricesSum(lines: seq<Line>)
    ensures Sum(Prices(lines)) == LinesTotal(lines)
  {
    if lines != [] {
      PricesSum(lines[..|lines| - 1]);
      assert Prices(lines)[..|lines| - 1] == Prices(lines[..|lines| - 1]);
    }
  }

  lemma {:induction false} MetricSums(metrics: seq<Metric>, gross: seq<nat>, refunds: seq<nat>)
    requires |metrics| == |gross| == |refunds|
    requires forall i {:trigger metrics[i]} :: 0 <= i < |metrics| ==> metrics[i].gross == gross[i] && metrics[i].refund == refunds[i]
    ensures GrossSum(metrics) == Sum(gross) && RefundSum(metrics) == Sum(refunds)
  {
    if metrics != [] {
      var n := |metrics| - 1;
      MetricSums(metrics[..n], gross[..n], refunds[..n]);
    }
  }

  /**
   * For any order of a valid shop: its lines' gross is its total, their refunds stay within the
   * money returned and short of it by less than a peso for each line but one, no line is refunded
   * beyond its price, and money returned in full nets every line to zero.
   */
  lemma {:induction false} OrderInBalance(o: Order, products: nat, period: Date, names: nat -> string, i: nat)
    requires LinesOk(o, products) && PaymentOk(o) && o.payment.Some? && i < |o.lines|
    ensures var m := OrderMetrics(o, period, names);
            var refunded := o.payment.value.refundedAmount;
            && GrossSum(m) == o.total
            && RefundSum(m) <= refunded <= RefundSum(m) + Max(0, |o.lines| - 2)
            && m[i].refund <= m[i].gross
            && (refunded == o.total ==> m[i].refund == m[i].gross)
  {
    var m := OrderMetrics(o, period, names);
    var gross := Prices(o.lines);
    var refunded := o.payment.value.refundedAmount;
    PricesSum(o.lines);
    MetricSums(m, gross, Allocation(refunded, gross));
    FullySpreadWhen(refunded, gross);
    ShortfallBound(refunded, gross);
    EachWithinGross(refunded, gross, i);
    if refunded == o.total {
      FullRefundClearsLines(refunded, gross, i);
    }
    hide Allocation, Prices, GrossSum, RefundSum, Sum, LinesTotal, Chain;
  }

  // ----- The whole shop

  /** How the shop prints: the business day of a time, and the names of products as sold. */
  datatype Labels = Labels(day: Time -> Date, created: Order -> Date, names: nat -> string)

  predicate IsRecognised(o: Order) {
    (o.status == Paid || o.status == Refunded) && o.paidAt.Some?
  }

  function ShopMetrics(orders: seq<Order>, labels: Labels): seq<Metric> {
    if orders == [] then []
    else
      var o := orders[|orders| - 1];
      ShopMetrics(orders[..|orders| - 1], labels)
      + (if IsRecognised(o) then OrderMetrics(o, labels.day(o.paidAt.value), labels.names) else [])
  }

  function OrderOpenLines(o: Order, labels: Labels): (open: seq<OpenLine>)
    ensures |open| == |o.lines|
    ensures forall i :: 0 <= i < |open| ==> open[i].total == o.lines[i].LineTotal() && open[i].facts.status == o.status
  {
    seq(|o.lines|, i requires 0 <= i < |o.lines| =>
                     OpenLine(Facts(labels.created(o), o.lines[i].product, labels.names(o.lines[i].product), o.paymentMethod, o.status),
                              o.lines[i].LineTotal()))
  }

  function ShopOpenLines(orders: seq<Order>, labels: Labels): seq<OpenLine> {
    if orders == [] then []
    else
      var o := orders[|orders| - 1];
      ShopOpenLines(orders[..|orders| - 1], labels) + (if IsActive(o.status) then OrderOpenLines(o, labels) else [])
  }

  /** The sum of the totals of the orders that are in one of some statuses. */
  function TotalOf(orders: seq<Order>, statuses: set<Status>): nat {
    if orders == [] then 0
    else
      var o := orders[|orders| - 1];
      TotalOf(orders[..|orders| - 1], statuses) + (if o.status in statuses then o.total else 0)
  }

  /** Money returned on paid and refunded orders. */
  function ReturnedOf(orders: seq<Order>): int {
    if orders == [] then 0
    else
      var o := orders[|orders| - 1];
      ReturnedOf(orders[..|orders| - 1]) + (if o.status == Paid || o.status == Refunded then RefundedOf(o) else 0)
  }

  /** What the shares of those refunds may lose in rounding. */
  function RoundingOf(orders: seq<Order>): nat {
    if orders == [] then 0
    else
      var o := orders[|orders| - 1];
      RoundingOf(orders[..|orders| - 1]) + (if o.status == Paid || o.status == Refunded then Max(0, |o.lines| - 2) else 0)
  }

  lemma {:induction false} SumsJoin(a: seq<Metric>, b: seq<Metric>)
    ensures GrossSum(a + b) == GrossSum(a) + GrossSum(b) && RefundSum(a + b) == RefundSum(a) + RefundSum(b)
  {
    if b == [] {
      assert a + b == a;
    } else {
      SumsJoin(a, b[..|b| - 1]);
      assert (a + b)[..|a + b| - 1] == a + b[..|b| - 1];
    }
  }

  lemma {:induction false} OpenJoin(a: seq<OpenLine>, b: seq<OpenLine>, underReview: bool)
    ensures OpenSum(a + b, underReview) == OpenSum(a, underReview) + OpenSum(b, underReview)
  {
    if b == [] {
      assert a + b == a;
    } else {
      OpenJoin(a, b[..|b| - 1], underReview);
      assert (a + b)[..|a + b| - 1] == a + b[..|b| - 1];
    }
  }

  lemma {:induction false} OpenLinesSum(open: seq<OpenLine>, lines: seq<Line>, status: Status, underReview: bool)
    requires |open| == |lines|
    requires forall i {:trigger open[i]} :: 0 <= i < |open| ==> open[i].total == lines[i].LineTotal() && open[i].facts.status == status
    ensures OpenSum(open, underReview) == if (status == PurchaseValidation) == underReview then LinesTotal(lines) else 0
  {
    if open != [] {
      var n := |open| - 1;
      assert forall i {:trigger open[..n][i]} :: 0 <= i < n ==> open[..n][i] == open[i] && lines[..n][i] == lines[i];
      OpenLinesSum(open[..n], lines[..n], status, underReview);
      assert open[n].total == lines[n].LineTotal();
    }
  }

  /** What the figures need of an order of a valid shop. */
  predicate Countable(o: Order) {
    && o.lines != [] && o.total == LinesTotal(o.lines)
    && (o.status == Paid || o.status == Refunded ==>
          o.paidAt.Some? && o.payment.Some? && 0 <= o.payment.value.refundedAmount <= o.total)
  }

  lemma {:induction false} OneInBalance(o: Order, period: Date, names: nat -> string)
    requires Countable(o) && (o.status == Paid || o.status == Refunded)
    ensures var m := OrderMetrics(o, period, names);
            GrossSum(m) == o.total && RefundSum(m) <= RefundedOf(o) <= RefundSum(m) + Max(0, |o.lines| - 2)
  {
    var m := OrderMetrics(o, period, names);
    var gross := Prices(o.lines);
    PricesSum(o.lines);
    MetricSums(m, gross, Allocation(RefundedOf(o), gross));
    FullySpreadWhen(RefundedOf(o), gross);
    ShortfallBound(RefundedOf(o), gross);
    hide Allocation, Prices, GrossSum, RefundSum, Sum, LinesTotal;
  }

  const Sold := {Paid, Refunded}
  const Active := {Reserved, PurchaseInProgress, PurchaseValidation}
  const UnderReview := {PurchaseValidation}

  lemma {:induction false} MetricsOfAll(orders: seq<Order>, labels: Labels)
    requires forall k {:trigger orders[k]} :: 0 <= k < |orders| ==> Countable(orders[k])
    ensures GrossSum(ShopMetrics(orders, labels)) == TotalOf(orders, Sold)
    ensures RefundSum(ShopMetrics(orders, labels)) <= ReturnedOf(orders)
            <= RefundSum(ShopMetrics(orders, labels)) + RoundingOf(orders)
    ensures ReturnedOf(orders) <= TotalOf(orders, Sold)
  {
    if orders != [] {
      var init := orders[..|orders| - 1];
      var o := orders[|orders| - 1];
      assert forall k {:trigger init[k]} :: 0 <= k < |init| ==> init[k] == orders[k];
      MetricsOfAll(init, labels);
      if o.status == Paid || o.status == Refunded {
        OneInBalance(o, labels.day(o.paidAt.value), labels.names);
        SumsJoin(ShopMetrics(init, labels), OrderMetrics(o, labels.day(o.paidAt.value), labels.names));
      } else {
        assert ShopMetrics(init, labels) + [] == ShopMetrics(init, labels);
      }
      hide GrossSum, RefundSum, LinesTotal, OrderMetrics;
    }
  }

  lemma {:induction false} OpenOfAll(orders: seq<Order>, labels: Labels)
    requires forall k {:trigger orders[k]} :: 0 <= k < |orders| ==> Countable(orders[k])
    ensures OpenSum(ShopOpenLines(orders, labels), true) == TotalOf(orders, UnderReview)
    ensures OpenSum(ShopOpenLines(orders, labels), false) + OpenSum(ShopOpenLines(orders, labels), true) == TotalOf(orders, Active)
  {
    if orders != [] {
      var init := orders[..|orders| - 1];
      var o := orders[|orders| - 1];
      assert forall k {:trigger init[k]} :: 0 <= k < |init| ==> init[k] == orders[k];
      OpenOfAll(init, labels);
      if IsActive(o.status) {
        var open := OrderOpenLines(o, labels);
        OpenLinesSum(open, o.lines, o.status, true);
        OpenLinesSum(open, o.lines, o.status, false);
        OpenJoin(ShopOpenLines(init, labels), open, true);
        OpenJoin(ShopOpenLines(init, labels), open, false);
      } else {
        assert ShopOpenLines(init, labels) + [] == ShopOpenLines(init, labels);
      }
      hide OpenSum, LinesTotal, OrderOpenLines;
    }
  }

  lemma {:induction false} ValidCountable(db: Db, k: nat)
    requires Valid(db) && k < |db.orders|
    ensures Countable(db.orders[k])
  {
    assert OrderOk(db.orders[k], k, |db.t.products|, db.t.movements);
    hide Stock.Sound, Chain;
  }

  /**
   * Over all orders of a valid shop: gross is the sum of the totals of paid and refunded orders,
   * open amounts are those of the active ones and the reviewed part those under review; refunds are
   * the money returned but for the rounding of shares, and the net is never negative.
   */
  lemma {:induction false} ShopInBalance(db: Db, labels: Labels)
    requires Valid(db)
    ensures var b := SalesBalance(ShopMetrics(db.orders, labels), ShopOpenLines(db.orders, labels));
            && b.gross == TotalOf(db.orders, Sold)
            && b.validation == TotalOf(db.orders, UnderReview)
            && b.pending + b.validation == TotalOf(db.orders, Active)
            && b.refunds <= ReturnedOf(db.orders) <= b.refunds + RoundingOf(db.orders)
            && b.net >= 0
  {
    hide Valid, Countable, GrossSum, RefundSum, OpenSum, TotalOf, ReturnedOf, RoundingOf, ShopMetrics, ShopOpenLines;
    forall k {:trigger db.orders[k]} | 0 <= k < |db.orders| ensures Countable(db.orders[k]) {
      ValidCountable(db, k);
    }
    MetricsOfAll(db.orders, labels);
    OpenOfAll(db.orders, labels);
  }
}
