/** The accounting page (src/pages/History.tsx): choosing the period, the
    table filters over the period's entries, the profit and margin cards,
    and the top three products. Calendar arithmetic (day bounds, the preset
    ranges) stays outside: presets and custom days arrive as windows. */
module HistoryPage {
  import opened Js
  import opened Seqs
  import opened Inventory
  import opened Analytics

  /** The period picker: one of the preset ranges by index, or two custom
      days (each given as its own start-of-day..end-of-day window). */
  datatype Selection = Preset(index: int) | Custom(startDay: Window, endDay: Window)

  /** `dateRanges[parseInt(selectedRange)]`, or from the start of the first
      custom day to the end of the last. An index outside the presets makes
      the page read a property of `undefined` and fail: `None`. */
  function SelectedPeriod(sel: Selection, presets: seq<Window>): (r: Option<Window>)
    ensures sel.Preset? ==> (r.Some? <==> 0 <= sel.index < |presets|)
    ensures sel.Preset? && r.Some? ==> r.value == presets[sel.index]
    ensures sel.Custom? ==> r == Some(Window(sel.startDay.start, sel.endDay.end))
  {
    match sel
    case Preset(i) => if 0 <= i < |presets| then Some(presets[i]) else None
    case Custom(a, b) => Some(Window(a.start, b.end))
  }

  /** A custom period covers both of its days entirely, and every entry of
      either day is in the period. */
  lemma CustomCoversDays(a: Window, b: Window, presets: seq<Window>, t: Txn)
    requires a.start <= a.end && b.start <= b.end && a.start <= b.start && a.end <= b.end
    requires Within(t, a) || Within(t, b)
    ensures Within(t, SelectedPeriod(Custom(a, b), presets).value)
  {
  }

  /** `sub` occurs in `s` at position `i`. */
  predicate OccursAt(s: string, sub: string, i: int)
    requires 0 <= i <= |s| - |sub|
  {
    s[i..i + |sub|] == sub
  }

  /** `s.includes(sub)`. */
  predicate Contains(s: string, sub: string)
  {
    exists i :: 0 <= i <= |s| - |sub| && OccursAt(s, sub, i)
  }

  /** The type filter: "all", or one kind. */
  datatype TypeFilter = All | Only(kind: Kind)

  function Matches(search: string, tf: TypeFilter, lower: string -> string): Txn -> bool
  {
    (t: Txn) => Contains(lower(t.productName), lower(search)) && (tf.All? || t.kind == tf.kind)
  }

  /** `filteredTransactions`: the period's entries whose product name
      contains the search text, ignoring case through `lower`, and whose
      kind passes the type filter. */
  function FilteredTransactions(period: seq<Txn>, search: string, tf: TypeFilter, lower: string -> string): (r: seq<Txn>)
    ensures |r| <= |period|
    ensures forall k :: 0 <= k < |r| ==> Contains(lower(r[k].productName), lower(search))
    ensures tf.Only? ==> forall k :: 0 <= k < |r| ==> r[k].kind == tf.kind
  {
    Filter(period, Matches(search, tf, lower))
  }

  /** An entry of the period is listed exactly when it matches both filters. */
  lemma FilterExact(period: seq<Txn>, search: string, tf: TypeFilter, lower: string -> string, i: int)
    requires 0 <= i < |period|
    ensures period[i] in FilteredTransactions(period, search, tf, lower)
      <==> Contains(lower(period[i].productName), lower(search)) && (tf.All? || period[i].kind == tf.kind)
  {
    FilterMembers(period, Matches(search, tf, lower));
  }

  /** The table keeps the period's order: the listed entries are those at
      increasing positions of the period, exactly the matching ones. */
  lemma FilteredInOrder(period: seq<Txn>, search: string, tf: TypeFilter, lower: string -> string)
    ensures var r := FilteredTransactions(period, search, tf, lower);
      var idx := KeptIndices(period, Matches(search, tf, lower));
      && |idx| == |r|
      && (forall k :: 0 <= k < |idx| ==> idx[k] < |period| && r[k] == period[idx[k]])
      && (forall k, l :: 0 <= k < l < |idx| ==> idx[k] < idx[l])
      && (forall i :: 0 <= i < |period| ==>
            (i in idx <==> Contains(lower(period[i].productName), lower(search)) && (tf.All? || period[i].kind == tf.kind)))
  {
    FilterIsOrderedSubsequence(period, Matches(search, tf, lower));
  }

  /** With an empty search (whose lower case is empty) and "all", the table
      shows the whole period. */
  lemma NoFilterShowsAll(period: seq<Txn>, lower: string -> string)
    requires lower("") == ""
    ensures FilteredTransactions(period, "", All, lower) == period
  {
    forall i | 0 <= i < |period| ensures Matches("", All, lower)(period[i]) {
      assert OccursAt(lower(period[i].productName), "", 0);
    }
    FilterKeepsAll(period, Matches("", All, lower));
  }

  /** For the same search, the purchases and the sales shown under the two
      type filters add up to the entries shown under "all". */
  lemma TypeFiltersPartition(period: seq<Txn>, search: string, lower: string -> string)
    ensures |FilteredTransactions(period, search, Only(Achat), lower)| + |FilteredTransactions(period, search, Only(Vente), lower)|
         == |FilteredTransactions(period, search, All, lower)|
  {
    var shown := FilteredTransactions(period, search, All, lower);
    FilterPartitionLength(shown, IsAchat, IsVente);
    FilterFilter(period, Matches(search, All, lower), IsAchat, Matches(search, Only(Achat), lower));
    FilterFilter(period, Matches(search, All, lower), IsVente, Matches(search, Only(Vente), lower));
  }

  /** The profit card: a sign, then `formatCurrency`, which prints the
      absolute value. */
  datatype Signed = Signed(negative: bool, magnitude: nat)

  function ProfitLabel(profit: int): (r: Signed)
    ensures r.negative <==> profit < 0
  {
    if profit >= 0 then Signed(false, profit) else Signed(true, -profit)
  }

  /** The amount a label stands for. */
  function Amount(s: Signed): int
  {
    if s.negative then -(s.magnitude as int) else s.magnitude
  }

  /** The label loses nothing: reading it back gives the profit, and a zero
      profit reads "+0". */
  lemma ProfitLabelRoundTrip(profit: int)
    ensures Amount(ProfitLabel(profit)) == profit
    ensures ProfitLabel(0) == Signed(false, 0)
  {
  }

  /** The margin badge. */
  datatype MarginBadge = MarginWeak | MarginFair | MarginExcellent

  /** "Excellente" from 20%, "Correcte" from 10%, else "Faible". */
  function MarginBadgeOf(margin: real): (b: MarginBadge)
    ensures b == MarginExcellent <==> margin >= 20.0
    ensures b == MarginWeak <==> margin < 10.0
  {
    if margin >= 20.0 then MarginExcellent else if margin >= 10.0 then MarginFair else MarginWeak
  }

  /** A period without revenue is rated "Faible"; so is a period that sells
      at a loss. */
  lemma MarginBadgeOfPeriod(ts: seq<Txn>, w: Window)
    ensures GetPeriodStats(ts, w).revenue <= 0 ==> MarginBadgeOf(GetPeriodStats(ts, w).grossMargin) == MarginWeak
    ensures GetPeriodStats(ts, w).profit < 0 ==> MarginBadgeOf(GetPeriodStats(ts, w).grossMargin) == MarginWeak
  {
    var r := GetPeriodStats(ts, w);
    if r.revenue > 0 && r.profit < 0 {
      var x := r.profit as real / r.revenue as real * 100.0;
      assert x < 0.0;
      Round2Negative(x);
    }
  }

  lemma Round2Negative(x: real)
    requires x < 0.0
    ensures Round2(x) <= 0.0
  {
    RoundMonotone(x * 100.0, 0.0);
    RoundOfInt(0);
  }

  /** "Top 3 des meilleures ventes". */
  function Top3(perf: seq<Performance>): (r: seq<Performance>)
    ensures |r| == Min(3, |perf|)
    ensures forall i :: 0 <= i < |r| ==> r[i] == perf[i]
  {
    Prefix(perf, 3)
  }

  /** On the engine's rows, every product outside the top three earns no more
      than every product in it. */
  lemma Top3IsBest(products: seq<Product>, ts: seq<Txn>)
    ensures var perf := ProductPerformance(products, ts);
      forall i, j :: 0 <= i < |Top3(perf)| <= j < |perf| ==> Top3(perf)[i].totalRevenue >= perf[j].totalRevenue
  {
  }
}
