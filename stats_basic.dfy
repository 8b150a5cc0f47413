/** The earlier statistics screen kept at the top of the repository: a colour
    parser that reads the first three decimal numbers, case-sensitive counting
    with a descending sort, the top emotion and the bar-chart series. */
module RootStatsScreen {
  import opened Wrappers
  import opened Strings
  import opened Tally

  /** The longest prefix of `s` made of digits. */
  function DigitPrefix(s: string): (p: string)
    ensures |p| <= |s| && p == s[..|p|] && AllDigits(p)
    ensures |p| < |s| ==> !IsDigit(s[|p|])
  {
    if s == [] || !IsDigit(s[0]) then [] else [s[0]] + DigitPrefix(s[1..])
  }

  /** `s.match(/\d+/g)`: the maximal runs of digits, left to right (`null`
      when there is none is the empty sequence here). */
  function DigitRuns(s: string): (runs: seq<string>)
    ensures forall k :: 0 <= k < |runs| ==> runs[k] != [] && AllDigits(runs[k])
    decreases |s|
  {
    if s == [] then []
    else if !IsDigit(s[0]) then DigitRuns(s[1..])
    else
      var run := DigitPrefix(s);
      [run] + DigitRuns(s[|run|..])
  }

  datatype Rgb = Rgb(r: nat, g: nat, b: nat)

  /** `parseRGB`: the first three runs read as decimal numbers; fewer than
      three runs give black. */
  function ParseRGB(color: string): (c: Rgb)
    ensures |DigitRuns(color)| < 3 ==> c == Rgb(0, 0, 0)
  {
    var runs := DigitRuns(color);
    if |runs| >= 3 then Rgb(DecimalValue(runs[0]), DecimalValue(runs[1]), DecimalValue(runs[2]))
    else Rgb(0, 0, 0)
  }

  /** Characters that are not digits are skipped. */
  lemma {:induction false} RunsSkipPlain(p: string, s: string)
    requires forall i :: 0 <= i < |p| ==> !IsDigit(p[i])
    ensures DigitRuns(p + s) == DigitRuns(s)
  {
    if p != [] {
      assert (p + s)[1..] == p[1..] + s;
      RunsSkipPlain(p[1..], s);
    } else {
      assert p + s == s;
    }
  }

  lemma {:induction false} DigitPrefixOf(d: string, s: string)
    requires AllDigits(d) && (s == [] || !IsDigit(s[0]))
    ensures DigitPrefix(d + s) == d
  {
    if d != [] {
      assert (d + s)[1..] == d[1..] + s;
      DigitPrefixOf(d[1..], s);
    } else {
      assert d + s == s;
    }
  }

  /** A run of digits ended by a non-digit (or by the end) is one match. */
  lemma RunsTakeDigits(d: string, s: string)
    requires d != [] && AllDigits(d) && (s == [] || !IsDigit(s[0]))
    ensures DigitRuns(d + s) == [d] + DigitRuns(s)
  {
    DigitPrefixOf(d, s);
    assert (d + s)[|d|..] == s;
  }

  /** The CSS text of a colour. */
  function RgbText(c: Rgb): string
  {
    "rgb(" + (NatToString(c.r) + (", " + (NatToString(c.g) + (", " + (NatToString(c.b) + ")")))))
  }

  /** The three numbers of `rgb(r, g, b)` are its three runs. */
  lemma RunsOfRgbText(r: string, g: string, b: string)
    requires r != [] && g != [] && b != [] && AllDigits(r) && AllDigits(g) && AllDigits(b)
    ensures DigitRuns("rgb(" + (r + (", " + (g + (", " + (b + ")")))))) == [r, g, b]
  {
    var t1 := g + (", " + (b + ")"));
    RunsOfLastTwo(g, b);
    var t0 := ", " + t1;
    assert DigitRuns(t0) == [g, b] by { RunsSkipPlain(", ", t1); }
    var whole := r + t0;
    assert DigitRuns(whole) == [r, g, b] by {
      assert t0[0] == ',';
      RunsTakeDigits(r, t0);
    }
    RunsSkipPlain("rgb(", whole);
  }

  lemma RunsOfLastTwo(g: string, b: string)
    requires g != [] && b != [] && AllDigits(g) && AllDigits(b)
    ensures DigitRuns(g + (", " + (b + ")"))) == [g, b]
  {
    var t3 := b + ")";
    assert DigitRuns(t3) == [b] by {
      RunsSkipPlain(")", []);
      assert ")" + [] == ")";
      RunsTakeDigits(b, ")");
    }
    var t2 := ", " + t3;
    assert DigitRuns(t2) == [b] by { RunsSkipPlain(", ", t3); }
    assert t2[0] == ',';
    RunsTakeDigits(g, t2);
  }

  /** Reading back `rgb(r, g, b)` gives the colour. */
  lemma ParseRGBText(c: Rgb)
    ensures ParseRGB(RgbText(c)) == c
  {
    RunsOfRgbText(NatToString(c.r), NatToString(c.g), NatToString(c.b));
    DecimalOfNatToString(c.r);
    DecimalOfNatToString(c.g);
    DecimalOfNatToString(c.b);
  }

  /** The statistics `fetchStats` builds from the fetched rows. */
  function FetchedStats(rows: seq<string>): seq<Entry>
  {
    SortByCountDesc(TallyOf(rows))
  }

  /** Counting is case-sensitive and exact: each entry holds the number of
      rows with exactly its text, every row text has an entry, the counts add
      up to the number of rows, and the list is non-increasing by count. */
  lemma FetchedStatsCorrect(rows: seq<string>)
    ensures var p := FetchedStats(rows);
      && SortedByCountDesc(p)
      && Total(p) == |rows|
      && (forall i :: 0 <= i < |p| ==> p[i].count == multiset(rows)[p[i].key])
      && (forall k :: k in rows <==> HasKey(p, k))
  {
    var t := TallyOf(rows);
    var p := FetchedStats(rows);
    TallyCounts(rows);
    SortByCountDescCorrect(t);
    SortKeepsTotal(t);
    forall i | 0 <= i < |p| ensures p[i].count == multiset(rows)[p[i].key] {
      assert p[i] in multiset(t);
    }
    forall k ensures k in rows <==> HasKey(p, k) {
      if k in rows {
        var m :| 0 <= m < |t| && t[m].key == k;
        assert t[m] in multiset(p);
      }
      if HasKey(p, k) {
        var i :| 0 <= i < |p| && p[i].key == k;
        assert p[i] in multiset(t);
      }
    }
  }

  /** `stats.length ? stats[0].emotion : 'None'`. */
  function TopEmotion(stats: seq<Entry>): (top: string)
    ensures stats == [] ==> top == "None"
    ensures stats != [] ==> HasKey(stats, top)
  {
    if |stats| > 0 then stats[0].key else "None"
  }

  /** The top emotion of fetched statistics is one of the most frequent row
      texts. */
  lemma TopEmotionIsMostFrequent(rows: seq<string>)
    requires rows != []
    ensures TopEmotion(FetchedStats(rows)) in rows
    ensures forall k :: k in rows ==> multiset(rows)[k] <= multiset(rows)[TopEmotion(FetchedStats(rows))]
  {
    var p := FetchedStats(rows);
    FetchedStatsCorrect(rows);
    assert HasKey(p, rows[0]);
    forall k | k in rows ensures multiset(rows)[k] <= multiset(rows)[p[0].key] {
      var i :| 0 <= i < |p| && p[i].key == k;
    }
  }

  /** `barChartData`: one label and one value per statistic, in order. */
  function BarChart(stats: seq<Entry>): (chart: (seq<string>, seq<nat>))
    ensures |chart.0| == |stats| && |chart.1| == |stats|
    ensures forall i :: 0 <= i < |stats| ==> chart.0[i] == stats[i].key && chart.1[i] == stats[i].count
  {
    if stats == [] then ([], [])
    else
      var rest := BarChart(stats[1..]);
      ([stats[0].key] + rest.0, [stats[0].count] + rest.1)
  }

  class RootStatsScreenState {
    var stats: seq<Entry>
    var loading: bool
    var toastVisible: bool
    var toastMessage: string

    constructor ()
      ensures stats == [] && !loading && !toastVisible && toastMessage == ""
    {
      stats := [];
      loading := false;
      toastVisible, toastMessage := false, "";
    }

    /** `fetchStats`, with the answer to the seven-day query. A query error
        shows a toast and keeps the old statistics. A successful answer with
        no `data` makes `data.reduce` throw: the handler stops there with
        `loading` still set. */
    method FetchStats(result: QueryResult<string>)
      modifies this
      ensures result.QueryFailed? ==>
        stats == old(stats) && !loading && toastVisible && toastMessage == "Ошибка получения статистики"
      ensures result.QueryOk? && result.data.None? ==>
        stats == old(stats) && loading && !toastVisible && toastMessage == ""
      ensures result.QueryOk? && result.data.Some? ==>
        stats == FetchedStats(result.data.value) && !loading && !toastVisible && toastMessage == ""
    {
      loading := true;
      toastVisible, toastMessage := false, "";
      if result.QueryFailed? {
        toastVisible, toastMessage := true, "Ошибка получения статистики";
        loading := false;
        return;
      }
      if result.data.None? {
        return;
      }
      var counts := CountByKey(result.data.value);
      stats := SortByCountDesc(counts);
      loading := false;
    }
  }
}
