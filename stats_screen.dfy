/** The weekly statistics screen: the hex colour parser, the mood bands, the
    case-insensitive emotion counting with translation and sort, the
    happiness index, and the fetch and clear handlers. */
module StatsScreen {
  import opened Wrappers
  import opened Strings
  import opened Tally

  // ---------------------------------------------------------------------------
  // `parseRGB` for '#RRGGBB' colours

  predicate IsHexDigit(c: char)
  {
    ('0' <= c <= '9') || ('a' <= c <= 'f') || ('A' <= c <= 'F')
  }

  predicate AllHex(s: string)
  {
    forall i :: 0 <= i < |s| ==> IsHexDigit(s[i])
  }

  function HexDigitValue(c: char): (d: nat)
    requires IsHexDigit(c)
    ensures d < 16
  {
    if '0' <= c <= '9' then c as int - '0' as int
    else if 'a' <= c <= 'f' then c as int - 'a' as int + 10
    else c as int - 'A' as int + 10
  }

  /** The number a string of hex digits denotes. */
  function HexValue(s: string): nat
    requires AllHex(s)
  {
    if s == [] then 0 else HexValue(s[..|s| - 1]) * 16 + HexDigitValue(s[|s| - 1])
  }

  /** The longest prefix of `s` made of hex digits. */
  function HexPrefix(s: string): (p: string)
    ensures AllHex(p) && |p| <= |s| && p == s[..|p|]
    ensures |p| < |s| ==> !IsHexDigit(s[|p|])
  {
    if s == [] || !IsHexDigit(s[0]) then [] else [s[0]] + HexPrefix(s[1..])
  }

  /** `s.replace('#', '')`: only the first '#' is removed. */
  function RemoveFirstHash(s: string): (r: string)
    ensures '#' in s ==> |r| == |s| - 1
    ensures '#' !in s ==> r == s
  {
    if s == [] then []
    else if s[0] == '#' then s[1..]
    else [s[0]] + RemoveFirstHash(s[1..])
  }

  /** `parseInt(s, 16)`: leading whitespace, an optional sign, an optional
      "0x"/"0X", then the longest run of hex digits; `None` stands for NaN. */
  function ParseIntHex(s: string): (r: Option<int>)
    ensures r.None? <==> HexPrefix(StripHexPrefix(StripSign(TrimStart(s)).1)) == []
  {
    var (negative, unsigned) := StripSign(TrimStart(s));
    var digits := HexPrefix(StripHexPrefix(unsigned));
    if digits == [] then None
    else Some(if negative then -(HexValue(digits) as int) else HexValue(digits))
  }

  function StripSign(s: string): (bool, string)
  {
    if s != [] && s[0] == '-' then (true, s[1..])
    else if s != [] && s[0] == '+' then (false, s[1..])
    else (false, s)
  }

  function StripHexPrefix(s: string): string
  {
    if |s| >= 2 && s[0] == '0' && (s[1] == 'x' || s[1] == 'X') then s[2..] else s
  }

  datatype Rgb = Rgb(r: int, g: int, b: int)

  /** `(v >> 16) & 255`, `(v >> 8) & 255`, `v & 255`: the shifts and masks work
      on the value taken modulo 2^32 (two's complement), and NaN counts as 0. */
  function ParseRGB(color: string): (c: Rgb)
    ensures 0 <= c.r < 256 && 0 <= c.g < 256 && 0 <= c.b < 256
  {
    Channels(ParseIntHex(RemoveFirstHash(color)))
  }

  function Channels(parsed: Option<int>): (c: Rgb)
    ensures 0 <= c.r < 256 && 0 <= c.g < 256 && 0 <= c.b < 256
  {
    match parsed
    case None => Rgb(0, 0, 0)
    case Some(v) =>
      var u := v % 0x1_0000_0000;
      Rgb((u / 0x1_0000) % 256, (u / 256) % 256, u % 256)
  }

  lemma HexPrefixAll(s: string)
    requires AllHex(s)
    ensures HexPrefix(s) == s
  {
  }

  /** The value of the `k`-th pair of digits of six hex digits. */
  function HexByte(h: string, k: nat): nat
    requires |h| == 6 && AllHex(h) && k < 3
  {
    HexValue(h[2 * k..2 * k + 2])
  }

  /** Six hex digits after '#' give their three bytes. */
  lemma ParseRGBHexBytes(h: string)
    requires |h| == 6 && AllHex(h)
    ensures ParseRGB("#" + h) == Rgb(HexByte(h, 0), HexByte(h, 1), HexByte(h, 2))
  {
    var hi, mid, lo := HexValue(h[..2]), HexValue(h[2..4]), HexValue(h[4..6]);
    SixHexDigits(h);
    ParseHashHex(h);
    ParsedChannels("#" + h, HexValue(h), hi, mid, lo);
    assert h[0..2] == h[..2];
  }

  lemma ParsedChannels(color: string, v: int, hi: nat, mid: nat, lo: nat)
    requires ParseIntHex(RemoveFirstHash(color)) == Some(v)
    requires hi < 256 && mid < 256 && lo < 256 && v == hi * 0x1_0000 + mid * 256 + lo
    ensures ParseRGB(color).r == hi && ParseRGB(color).g == mid && ParseRGB(color).b == lo
  {
    ByteSplit(v, hi, mid, lo);
  }

  /** '#' followed by at least two hex digits parses as those digits. */
  lemma ParseHashHex(h: string)
    requires |h| >= 2 && AllHex(h)
    ensures ParseIntHex(RemoveFirstHash("#" + h)) == Some(HexValue(h))
  {
    RemoveLeadingHash(h);
    ParseIntHexOfDigits(h);
  }

  /** A non-empty run of hex digits parses as its value. */
  lemma ParseIntHexOfDigits(h: string)
    requires h != [] && AllHex(h)
    ensures ParseIntHex(h) == Some(HexValue(h))
  {
    TrimStartKeeps(h);
    assert StripSign(h) == (false, h);
    assert StripHexPrefix(h) == h by {
      if |h| >= 2 { assert IsHexDigit(h[1]); }
    }
    HexPrefixAll(h);
  }

  lemma RemoveLeadingHash(s: string)
    ensures RemoveFirstHash("#" + s) == s
  {
    assert ("#" + s)[1..] == s;
  }

  lemma TrimStartKeeps(s: string)
    requires s != [] && !IsSpace(s[0])
    ensures TrimStart(s) == s
  {
  }

  lemma HexAppendTwo(a: string, b: string)
    requires AllHex(a) && AllHex(b) && |b| == 2
    ensures AllHex(a + b) && HexValue(a + b) == HexValue(a) * 256 + HexValue(b)
  {
    var ab := a + b;
    var d0, d1 := HexDigitValue(b[0]), HexDigitValue(b[1]);
    assert ab[..|ab| - 1] == a + [b[0]];
    assert (a + [b[0]])[..|a|] == a;
    assert HexValue(a + [b[0]]) == HexValue(a) * 16 + d0;
    assert HexValue(ab) == (HexValue(a) * 16 + d0) * 16 + d1;
    TwoHexValue(b);
  }

  lemma SixHexDigits(h: string)
    requires |h| == 6 && AllHex(h)
    ensures HexValue(h) == HexValue(h[..2]) * 0x1_0000 + HexValue(h[2..4]) * 256 + HexValue(h[4..6])
    ensures HexValue(h[..2]) < 256 && HexValue(h[2..4]) < 256 && HexValue(h[4..6]) < 256
  {
    HexAppendTwo(h[..2], h[2..4]);
    assert h[..2] + h[2..4] == h[..4];
    HexAppendTwo(h[..4], h[4..6]);
    assert h[..4] + h[4..6] == h;
    TwoHexValue(h[..2]);
    TwoHexValue(h[2..4]);
    TwoHexValue(h[4..6]);
  }

  lemma TwoHexValue(b: string)
    requires |b| == 2 && AllHex(b)
    ensures HexValue(b) == HexDigitValue(b[0]) * 16 + HexDigitValue(b[1]) < 256
  {
    assert b[..1] == [b[0]] && [b[0]][..0] == [];
    assert HexValue([b[0]]) == HexDigitValue(b[0]);
  }

  lemma ByteSplit(v: int, hi: nat, mid: nat, lo: nat)
    requires hi < 256 && mid < 256 && lo < 256 && v == hi * 0x1_0000 + mid * 256 + lo
    ensures Channels(Some(v)) == Rgb(hi, mid, lo)
  {
    assert v % 0x1_0000_0000 == v;
    assert v / 0x1_0000 == hi;
    assert v / 256 == hi * 256 + mid;
  }

  // ---------------------------------------------------------------------------
  // `getHappinessDescription`

  const Excellent := "Отличное настроение! \U{1F60A}"
  const Good := "Хорошее настроение! \U{1F642}"
  const Neutral := "Нейтральное настроение \U{1F610}"
  const Low := "Подавленное настроение \U{1F61E}"
  const Hard := "Тяжелый период \U{1F622}"

  /** Five bands, from 80 up, 60 up, 40 up, 20 up, and below 20. */
  function HappinessDescription(index: int): (r: string)
    ensures r == Excellent <==> index >= 80
    ensures r == Good <==> 60 <= index < 80
    ensures r == Neutral <==> 40 <= index < 60
    ensures r == Low <==> 20 <= index < 40
    ensures r == Hard <==> index < 20
  {
    if index >= 80 then Excellent
    else if index >= 60 then Good
    else if index >= 40 then Neutral
    else if index >= 20 then Low
    else Hard
  }

  /** A higher index never gets a gloomier description. */
  lemma DescriptionMonotone(i: int, j: int)
    requires i <= j
    ensures Band(HappinessDescription(i)) <= Band(HappinessDescription(j))
  {
  }

  /** The rank of a description, from 'Тяжелый период' (0) up to
      'Отличное настроение' (4). */
  function Band(description: string): (r: nat)
    ensures r <= 4
    ensures r == 0 <==> description != Excellent && description != Good && description != Neutral && description != Low
  {
    if description == Excellent then 4
    else if description == Good then 3
    else if description == Neutral then 2
    else if description == Low then 1
    else 0
  }

  // ---------------------------------------------------------------------------
  // `processEmotionData`

  /** `EMOTION_TRANSLATIONS`, in declaration order. */
  const Translations: seq<(string, string)> := [
    ("angry", "Злость"), ("disgust", "Отвращение"), ("fear", "Страх"),
    ("happy", "Радость"), ("sad", "Грусть"), ("surprise", "Удивление"),
    ("neutral", "Нейтрально")]

  /** `Object.entries(table).find(([_, v]) => v === value)?.[0]`. */
  function FindKey(table: seq<(string, string)>, value: string): (r: Option<string>)
    ensures r.None? <==> forall i :: 0 <= i < |table| ==> table[i].1 != value
  {
    if table == [] then None
    else if table[0].1 == value then Some(table[0].0)
    else FindKey(table[1..], value)
  }

  /** `EMOTION_TRANSLATIONS[key] || key`. */
  function Translate(key: string): string
  {
    match Lookup(Translations, key)
    case Some(t) => t
    case None => key
  }

  function Lowered(rows: seq<string>): (r: seq<string>)
    ensures |r| == |rows| && forall i :: 0 <= i < |rows| ==> r[i] == ToLower(rows[i])
  {
    if rows == [] then [] else [ToLower(rows[0])] + Lowered(rows[1..])
  }

  function TranslateAll(entries: seq<Entry>): (r: seq<Entry>)
    ensures |r| == |entries|
    ensures forall i :: 0 <= i < |entries| ==> r[i] == Entry(Translate(entries[i].key), entries[i].count)
  {
    if entries == [] then [] else [Entry(Translate(entries[0].key), entries[0].count)] + TranslateAll(entries[1..])
  }

  /** What `processEmotionData` returns for the fetched rows. */
  function ProcessedStats(rows: seq<string>): seq<Entry>
  {
    SortByCountDesc(TranslateAll(TallyOf(Lowered(rows))))
  }

  /** `processEmotionData`: count by lower-cased emotion into a dictionary,
      translate the known keys, sort by count. */
  method ProcessEmotionData(rows: seq<string>) returns (stats: seq<Entry>)
    ensures stats == ProcessedStats(rows)
  {
    var counts := CountByKey(Lowered(rows));
    stats := SortByCountDesc(TranslateAll(counts));
  }

  lemma {:induction false} TranslateAllTotal(entries: seq<Entry>)
    ensures Total(TranslateAll(entries)) == Total(entries)
  {
    if entries != [] {
      TranslateAllTotal(entries[1..]);
      assert TranslateAll(entries)[1..] == TranslateAll(entries[1..]);
    }
  }

  /** The statistics are sorted by count, and their counts add up to the
      number of rows. */
  lemma ProcessedStatsSortedTotal(rows: seq<string>)
    ensures SortedByCountDesc(ProcessedStats(rows))
    ensures Total(ProcessedStats(rows)) == |rows|
  {
    var t := TallyOf(Lowered(rows));
    TallyCounts(Lowered(rows));
    SortByCountDescCorrect(TranslateAll(t));
    SortKeepsTotal(TranslateAll(t));
    TranslateAllTotal(t);
  }

  /** Each entry is the translated lower-cased form of some row, counted as
      the number of rows that lower-case to the same text. */
  lemma ProcessedStatsEntries(rows: seq<string>)
    ensures var p := ProcessedStats(rows);
      forall i :: 0 <= i < |p| ==>
        exists j :: 0 <= j < |rows| && p[i] == Entry(Translate(ToLower(rows[j])), multiset(Lowered(rows))[ToLower(rows[j])])
  {
    var lowered := Lowered(rows);
    var t := TallyOf(lowered);
    var tr := TranslateAll(t);
    var p := ProcessedStats(rows);
    SortByCountDescCorrect(tr);
    forall i | 0 <= i < |p|
      ensures exists j :: 0 <= j < |rows| && p[i] == Entry(Translate(ToLower(rows[j])), multiset(lowered)[ToLower(rows[j])])
    {
      assert p[i] in multiset(tr);
      var m :| 0 <= m < |tr| && tr[m] == p[i];
      TallyEntryFromRow(rows, m);
    }
  }

  lemma TallyEntryFromRow(rows: seq<string>, m: nat)
    requires m < |TallyOf(Lowered(rows))|
    ensures var lowered := Lowered(rows);
      exists j :: 0 <= j < |rows| &&
        TranslateAll(TallyOf(lowered))[m] == Entry(Translate(ToLower(rows[j])), multiset(lowered)[ToLower(rows[j])])
  {
    var lowered := Lowered(rows);
    var t := TallyOf(lowered);
    TallyCounts(lowered);
    assert HasKey(t, t[m].key);
    var j :| 0 <= j < |lowered| && lowered[j] == t[m].key;
    assert TranslateAll(t)[m] == Entry(Translate(ToLower(rows[j])), multiset(lowered)[ToLower(rows[j])]);
  }

  /** Every row is counted under the entry of its translated lower-cased
      form; so there are no statistics exactly when there are no rows. */
  lemma ProcessedStatsCoverRows(rows: seq<string>)
    ensures var p := ProcessedStats(rows);
      forall j :: 0 <= j < |rows| ==> exists i :: 0 <= i < |p| && p[i].key == Translate(ToLower(rows[j]))
    ensures ProcessedStats(rows) == [] <==> rows == []
  {
    var lowered := Lowered(rows);
    var t := TallyOf(lowered);
    var tr := TranslateAll(t);
    var p := ProcessedStats(rows);
    TallyCounts(lowered);
    SortByCountDescCorrect(tr);
    forall j | 0 <= j < |rows|
      ensures exists i :: 0 <= i < |p| && p[i].key == Translate(ToLower(rows[j]))
    {
      assert lowered[j] in lowered;
      var m :| 0 <= m < |t| && t[m].key == lowered[j];
      assert tr[m] in multiset(p);
      var i :| 0 <= i < |p| && p[i] == tr[m];
    }
    if rows == [] {
      assert lowered == [];
    }
  }

  // ---------------------------------------------------------------------------
  // `happinessIndex`

  /** `EMOTION_WEIGHTS` in tenths: 1, 0.3, 0, -0.5, -1, -0.8, -0.6. */
  const WeightsInTenths: seq<(string, int)> := [
    ("happy", 10), ("surprise", 3), ("neutral", 0), ("sad", -5),
    ("angry", -10), ("disgust", -8), ("fear", -6)]

  /** The weight of a statistics entry, in tenths: its English key is found by
      its translation (case-sensitively) or else it is the entry's own text,
      then lower-cased and looked up; a missing weight is 0. */
  function WeightOf(emotion: string): (w: int)
    ensures -10 <= w <= 10
  {
    var original := match FindKey(Translations, emotion) case Some(k) => k case None => emotion;
    match Lookup(WeightsInTenths, ToLower(original))
    case Some(x) => x
    case None => 0
  }

  /** `count * weight`, in tenths. */
  function Weighted(e: Entry): int
  {
    e.count * WeightOf(e.key)
  }

  /** `totalScore`, in tenths. */
  function ScoreInTenths(stats: seq<Entry>): int
  {
    if stats == [] then 0 else Weighted(stats[0]) + ScoreInTenths(stats[1..])
  }

  /** `Math.round(((totalScore + totalEntries) / (2 * totalEntries)) * 100)`,
      with the score in tenths and `Math.round` as floor(x + 1/2). */
  function RoundedIndex(scoreInTenths: int, entries: nat): int
    requires entries > 0
  {
    (10 * (scoreInTenths + 10 * entries) + entries) / (2 * entries)
  }

  /** The index as the screen computes it: `null` without entries. */
  function HappinessIndexOf(stats: seq<Entry>): Option<int>
  {
    if Total(stats) == 0 then None else Some(RoundedIndex(ScoreInTenths(stats), Total(stats)))
  }

  /** `happinessIndex`: the `forEach` loop summing `count * weight` and `count`. */
  method HappinessIndex(stats: seq<Entry>) returns (index: Option<int>)
    ensures index == HappinessIndexOf(stats)
  {
    var totalScore := 0;
    var totalEntries := 0;
    var i := 0;
    while i < |stats|
      invariant 0 <= i <= |stats|
      invariant totalScore + ScoreInTenths(stats[i..]) == ScoreInTenths(stats)
      invariant totalEntries + Total(stats[i..]) == Total(stats)
    {
      var entry := stats[i];
      var weighted := Weighted(entry);
      SumsStep(stats, i);
      totalScore := totalScore + weighted;
      totalEntries := totalEntries + entry.count;
      i := i + 1;
    }
    SumsDone(stats);
    assert totalScore == ScoreInTenths(stats) && totalEntries == Total(stats);
    if totalEntries > 0 {
      index := Some(RoundedIndex(totalScore, totalEntries));
    } else {
      index := None;
    }
  }

  lemma SumsDone(stats: seq<Entry>)
    ensures ScoreInTenths(stats[|stats|..]) == 0 && Total(stats[|stats|..]) == 0
  {
    assert stats[|stats|..] == [];
  }

  lemma SumsStep(stats: seq<Entry>, i: nat)
    requires i < |stats|
    ensures ScoreInTenths(stats[i..]) == Weighted(stats[i]) + ScoreInTenths(stats[i + 1..])
    ensures Total(stats[i..]) == stats[i].count + Total(stats[i + 1..])
  {
    assert stats[i..][1..] == stats[i + 1..];
  }

  lemma {:induction false} ScoreBounded(stats: seq<Entry>)
    ensures -10 * Total(stats) <= ScoreInTenths(stats) <= 10 * Total(stats)
  {
    if stats != [] {
      ScoreBounded(stats[1..]);
      WeightedCountBounded(stats[0].count, WeightOf(stats[0].key));
    }
  }

  lemma WeightedCountBounded(c: nat, w: int)
    requires -10 <= w <= 10
    ensures -10 * c <= c * w <= 10 * c
  {
    if w >= 0 {
      assert c * w <= c * 10 by { assert c * (10 - w) >= 0; }
    } else {
      assert c * w >= c * -10 by { assert c * (w + 10) >= 0; }
    }
  }

  /** The rounded value is the integer nearest to the exact mean mood scaled
      to 0..100, halves going up. */
  lemma IndexIsRounded(score: int, n: nat)
    requires n > 0
    ensures 2 * n * RoundedIndex(score, n) <= 10 * (score + 10 * n) + n < 2 * n * RoundedIndex(score, n) + 2 * n
  {
  }

  /** The index is absent exactly when there are no entries, and lies in
      0..100 otherwise. */
  lemma HappinessIndexBounds(stats: seq<Entry>)
    ensures HappinessIndexOf(stats).None? <==> Total(stats) == 0
    ensures HappinessIndexOf(stats).Some? ==> 0 <= HappinessIndexOf(stats).value <= 100
  {
    if Total(stats) > 0 {
      ScoreBounded(stats);
      IndexRange(ScoreInTenths(stats), Total(stats));
    }
  }

  lemma IndexRange(score: int, n: nat)
    requires n > 0 && -10 * n <= score <= 10 * n
    ensures 0 <= RoundedIndex(score, n) <= 100
  {
    var num := 10 * (score + 10 * n) + n;
    assert n <= num < 101 * (2 * n);
    DivBelow(num, 2 * n, 101);
  }

  lemma DivBelow(a: nat, d: nat, q: nat)
    requires d > 0 && a < q * d
    ensures a / d < q
  {
  }

  /** For the statistics of fetched rows: no rows, no index. */
  lemma HappinessIndexOfRows(rows: seq<string>)
    ensures HappinessIndexOf(ProcessedStats(rows)).None? <==> rows == []
  {
    ProcessedStatsSortedTotal(rows);
  }

  /** A character of the Cyrillic block. */
  predicate IsCyrillic(c: char)
  {
    '\U{400}' <= c <= '\U{4FF}'
  }

  /** Lower-casing never produces a Cyrillic capital А..Я, and keeps a
      Cyrillic character out of a..z. */
  lemma LowerCharNotCapitalCyrillic(c: char)
    ensures !('\U{410}' <= LowerChar(c) <= '\U{42F}')
    ensures IsCyrillic(c) ==> !('a' <= LowerChar(c) <= 'z')
  {
  }

  /** Every English key starts with a..z. */
  lemma NoKeyOutsideLatin(s: string)
    requires s != [] && !('a' <= s[0] <= 'z')
    ensures Lookup(Translations, s).None? && Lookup(WeightsInTenths, s).None?
  {
    forall i | 0 <= i < |Translations| ensures Translations[i].0 != s {
      assert 'a' <= Translations[i].0[0] <= 'z';
    }
    forall i | 0 <= i < |WeightsInTenths| ensures WeightsInTenths[i].0 != s {
      assert 'a' <= WeightsInTenths[i].0[0] <= 'z';
    }
  }

  /** Every translation starts with a Cyrillic capital. */
  lemma NoTranslationWithoutCapital(s: string)
    requires s != [] && !('\U{410}' <= s[0] <= '\U{42F}')
    ensures FindKey(Translations, s).None?
  {
    forall i | 0 <= i < |Translations| ensures Translations[i].1 != s {
      assert '\U{410}' <= Translations[i].1[0] <= '\U{42F}';
    }
  }

  /** A row that starts with a Cyrillic character keeps its lower-cased text as
      its statistics entry, and that entry weighs nothing: it is no English
      key, and no translation, since every translation starts with a capital. */
  lemma CyrillicRowWeighsZero(row: string)
    requires row != [] && IsCyrillic(row[0])
    ensures Translate(ToLower(row)) == ToLower(row)
    ensures WeightOf(ToLower(row)) == 0
  {
    var low := ToLower(row);
    LowerCharNotCapitalCyrillic(row[0]);
    assert low[0] == LowerChar(row[0]);
    NoKeyOutsideLatin(low);
    NoTranslationWithoutCapital(low);
    ToLowerIdempotent(row);
  }

  lemma {:induction false} ScoreOfWeightless(stats: seq<Entry>)
    requires forall i :: 0 <= i < |stats| ==> WeightOf(stats[i].key) == 0
    ensures ScoreInTenths(stats) == 0
  {
    if stats != [] {
      ScoreOfWeightless(stats[1..]);
      assert WeightOf(stats[0].key) == 0;
      assert Weighted(stats[0]) == 0;
    }
  }

  /** The statistics of rows that all start with a Cyrillic character weigh
      nothing. */
  lemma CyrillicStatsWeightless(rows: seq<string>)
    requires forall j :: 0 <= j < |rows| ==> rows[j] != [] && IsCyrillic(rows[j][0])
    ensures ScoreInTenths(ProcessedStats(rows)) == 0
  {
    var p := ProcessedStats(rows);
    ProcessedStatsEntries(rows);
    forall i | 0 <= i < |p| ensures WeightOf(p[i].key) == 0 {
      var j :| 0 <= j < |rows| && p[i] == Entry(Translate(ToLower(rows[j])), multiset(Lowered(rows))[ToLower(rows[j])]);
      CyrillicRowWeighsZero(rows[j]);
    }
    ScoreOfWeightless(p);
  }

  /** A zero score is the midpoint of the scale. */
  lemma NeutralScoreIsFifty(n: nat)
    requires n > 0
    ensures RoundedIndex(0, n) == 50
  {
    var a := 10 * (0 + 10 * n) + n;
    assert 50 * (2 * n) <= a < 51 * (2 * n);
    DivBelow(a, 2 * n, 51);
    DivAtLeast(a, 2 * n, 50);
  }

  lemma MulCancel(x: int, y: int, d: int)
    requires d > 0 && x * d < y * d
    ensures x < y
  {
  }

  lemma DivAtLeast(a: nat, d: nat, q: nat)
    requires d > 0 && q * d <= a
    ensures q <= a / d
  {
    var k := a / d;
    assert a < (k + 1) * d;
    MulCancel(q, k + 1, d);
  }

  /** Rows whose emotion starts with a Cyrillic character (the Russian labels
      the face analysis stores) all weigh 0 after lower-casing, so any
      non-empty set of them has index 50. */
  lemma CyrillicRowsIndexFifty(rows: seq<string>)
    requires rows != []
    requires forall j :: 0 <= j < |rows| ==> rows[j] != [] && IsCyrillic(rows[j][0])
    ensures HappinessIndexOf(ProcessedStats(rows)) == Some(50)
  {
    ProcessedStatsSortedTotal(rows);
    CyrillicStatsWeightless(rows);
    NeutralScoreIsFifty(|rows|);
  }

  // ---------------------------------------------------------------------------
  // The screen

  datatype Effect = Toast(message: string) | DeleteAllEmotions

  class StatsScreenState {
    var stats: seq<Entry>
    var loading: bool
    var refreshing: bool
    var effects: seq<Effect>

    constructor ()
      ensures stats == [] && !loading && !refreshing && effects == []
    {
      stats := [];
      loading, refreshing := false, false;
      effects := [];
    }

    /** `fetchStats`, with whether a user is signed in and the answer to the
        seven-day query. */
    method FetchStats(hasUser: bool, result: QueryResult<string>)
      modifies this
      ensures !loading && !refreshing
      ensures !hasUser ==> stats == old(stats) && effects == old(effects)
      ensures hasUser && result.QueryFailed? ==>
        && stats == old(stats)
        && effects == old(effects) + [Toast(match result.error
             case ErrorObj(m) => m
             case NonError => "Ошибка получения статистики")]
      ensures hasUser && result.QueryOk? ==>
        stats == ProcessedStats(RowsOrEmpty(result.data)) && effects == old(effects)
    {
      loading, refreshing := true, true;
      if hasUser {
        match result {
          case QueryFailed(e) =>
            var m := match e case ErrorObj(m) => m case NonError => "Ошибка получения статистики";
            effects := effects + [Toast(m)];
          case QueryOk(data, _) =>
            stats := ProcessEmotionData(RowsOrEmpty(data));
        }
      }
      loading, refreshing := false, false;
    }

    /** The confirmed "Удалить" action of `clearStatistics`, with the backend's
        answer to the delete (`None` on success). */
    method ClearStatistics(deleteError: Option<Thrown>)
      modifies this
      ensures !loading && refreshing == old(refreshing)
      ensures deleteError.None? ==> stats == [] && effects == old(effects) + [DeleteAllEmotions, Toast("История эмоций очищена")]
      ensures deleteError.Some? ==>
        && stats == old(stats)
        && effects == old(effects) + [DeleteAllEmotions, Toast(match deleteError.value
             case ErrorObj(m) => m
             case NonError => "Ошибка очистки")]
    {
      loading := true;
      effects := effects + [DeleteAllEmotions];
      match deleteError {
        case None =>
          stats := [];
          effects := effects + [Toast("История эмоций очищена")];
        case Some(e) =>
          var m := match e case ErrorObj(m) => m case NonError => "Ошибка очистки";
          effects := effects + [Toast(m)];
      }
      loading := false;
    }
  }
}
