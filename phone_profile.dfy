/** The profile screen kept at the top of the repository: the Russian phone
    mask applied while typing, the six-cell one-time-code input and its check,
    the resend countdown, and sign-out. */
module RootProfileScreen {
  import opened Wrappers
  import opened Strings

  // ---------------------------------------------------------------------------
  // `formatPhoneNumber`

  /** `text.replace(/[^\d+]/g, '')`: only digits and '+' are kept. */
  function Clean(s: string): (r: string)
    ensures |r| <= |s|
    ensures forall i :: 0 <= i < |r| ==> IsDigit(r[i]) || r[i] == '+'
  {
    if s == [] then []
    else (if IsDigit(s[0]) || s[0] == '+' then [s[0]] else []) + Clean(s[1..])
  }

  /** `s.replace(/\D/g, '')`: only digits are kept. */
  function DigitsOf(s: string): (r: string)
    ensures |r| <= |s| && AllDigits(r)
  {
    if s == [] then []
    else (if IsDigit(s[0]) then [s[0]] else []) + DigitsOf(s[1..])
  }

  /** `s.slice(a, b)` for 0 <= a <= b: indices past the end are clamped. */
  function Slice(s: string, a: nat, b: nat): (r: string)
    requires a <= b
  {
    var hi := if b < |s| then b else |s|;
    var lo := if a < hi then a else hi;
    s[lo..hi]
  }

  /** The country part: '+7' when the first digit is 7, '+' and that digit
      otherwise. */
  function Lead(part1: string): (r: string)
    ensures |r| >= 1 && r[0] == '+'
  {
    if part1 == "7" then "+7" else "+" + part1
  }

  /** ' (AAA)' with the closing bracket only once the area code is complete. */
  function AreaPart(part2: string): string
  {
    if part2 != [] then " (" + part2 + (if |part2| == 3 then ")" else "") else ""
  }

  /** A separator followed by a group, or nothing for an empty group. */
  function Group(sep: string, part: string): string
  {
    if part != [] then sep + part else ""
  }

  /** The five parts of the mask, cut from the digits at 1, 4, 7, 9 and 11. */
  function Mask(digits: string): (r: string)
    ensures |r| >= 1 && r[0] == '+'
  {
    Lead(Slice(digits, 0, 1)) + AreaPart(Slice(digits, 1, 4)) + Group(" ", Slice(digits, 4, 7))
      + Group("-", Slice(digits, 7, 9)) + Group("-", Slice(digits, 9, 11))
  }

  /** `cleaned.startsWith('7') || cleaned.startsWith('+7')` */
  predicate IsRussian(cleaned: string)
  {
    StartsWith(cleaned, "7") || StartsWith(cleaned, "+7")
  }

  /** `formatPhoneNumber`: a cleaned Russian number is masked from its digits,
      anything else is returned as cleaned. */
  function FormatPhone(text: string): (r: string)
    ensures IsRussian(Clean(text)) ==> |r| >= 1 && r[0] == '+'
    ensures !IsRussian(Clean(text)) ==> r == Clean(text)
  {
    var cleaned := Clean(text);
    if IsRussian(cleaned) then Mask(DigitsOf(cleaned)) else cleaned
  }

  function Take11(digits: string): (r: string)
  {
    if |digits| <= 11 then digits else digits[..11]
  }

  lemma {:induction false} CleanConcat(a: string, b: string)
    ensures Clean(a + b) == Clean(a) + Clean(b)
  {
    if a == [] {
      assert a + b == b;
    } else {
      assert (a + b)[1..] == a[1..] + b;
      CleanConcat(a[1..], b);
    }
  }

  lemma {:induction false} DigitsConcat(a: string, b: string)
    ensures DigitsOf(a + b) == DigitsOf(a) + DigitsOf(b)
  {
    if a == [] {
      assert a + b == b;
    } else {
      var head := if IsDigit(a[0]) then [a[0]] else [];
      assert (a + b)[0] == a[0] && (a + b)[1..] == a[1..] + b;
      assert DigitsOf(a + b) == head + DigitsOf(a[1..] + b);
      DigitsConcat(a[1..], b);
      assert DigitsOf(a) == head + DigitsOf(a[1..]);
    }
  }

  /** Digits and '+' survive cleaning, digits survive digit extraction. */
  lemma {:induction false} CleanKeeps(s: string)
    requires forall i :: 0 <= i < |s| ==> IsDigit(s[i]) || s[i] == '+'
    ensures Clean(s) == s
  {
    if s != [] {
      CleanKeeps(s[1..]);
    }
  }

  lemma {:induction false} DigitsKeep(s: string)
    requires AllDigits(s)
    ensures DigitsOf(s) == s
  {
    if s != [] {
      DigitsKeep(s[1..]);
    }
  }

  /** Text without digits has no digits to extract. */
  lemma {:induction false} NoDigits(s: string)
    requires forall i :: 0 <= i < |s| ==> !IsDigit(s[i])
    ensures DigitsOf(s) == []
  {
    if s != [] {
      NoDigits(s[1..]);
    }
  }

  /** Punctuation of the mask vanishes under both filters. */
  lemma {:induction false} Punctuation(s: string)
    requires forall i :: 0 <= i < |s| ==> !IsDigit(s[i]) && s[i] != '+'
    ensures Clean(s) == [] && DigitsOf(s) == []
  {
    if s != [] {
      Punctuation(s[1..]);
    }
  }

  /** The cleaned input holds only digits and '+', and cleaning it again
      changes nothing. */
  lemma CleanIdempotent(text: string)
    ensures forall i :: 0 <= i < |Clean(text)| ==> IsDigit(Clean(text)[i]) || Clean(text)[i] == '+'
    ensures Clean(Clean(text)) == Clean(text)
  {
    CleanKeeps(Clean(text));
  }

  /** Input that does not start with '7' or '+7' once cleaned comes back
      exactly as cleaned. */
  lemma FormatPhoneNotRussian(text: string)
    requires !IsRussian(Clean(text))
    ensures FormatPhone(text) == Clean(text)
    ensures forall i :: 0 <= i < |FormatPhone(text)| ==> IsDigit(FormatPhone(text)[i]) || FormatPhone(text)[i] == '+'
  {
  }

  /** The five parts, put back together, are the first eleven digits. */
  lemma PartsAreFirstEleven(d: string)
    ensures Slice(d, 0, 1) + Slice(d, 1, 4) + Slice(d, 4, 7) + Slice(d, 7, 9) + Slice(d, 9, 11) == Take11(d)
  {
  }

  lemma LeadFilters(part1: string)
    requires AllDigits(part1)
    ensures Clean(Lead(part1)) == "+" + part1 && DigitsOf(Lead(part1)) == part1
  {
    CleanConcat("+", part1);
    DigitsConcat("+", part1);
    CleanKeeps("+");
    NoDigits("+");
    CleanKeeps(part1);
    DigitsKeep(part1);
  }

  lemma AreaFilters(part2: string)
    requires AllDigits(part2)
    ensures Clean(AreaPart(part2)) == part2 && DigitsOf(AreaPart(part2)) == part2
  {
    if part2 != [] {
      var open, close := " (", if |part2| == 3 then ")" else "";
      assert AreaPart(part2) == (open + part2) + close;
      Punctuation(open);
      Punctuation(close);
      AroundFilters(open, part2, close);
    }
  }

  /** Digits between two pieces of punctuation survive both filters. */
  lemma AroundFilters(open: string, part: string, close: string)
    requires AllDigits(part)
    requires Clean(open) == [] && DigitsOf(open) == [] && Clean(close) == [] && DigitsOf(close) == []
    ensures Clean((open + part) + close) == part && DigitsOf((open + part) + close) == part
  {
    CleanConcat(open + part, close);
    CleanConcat(open, part);
    CleanKeeps(part);
    DigitsConcat(open + part, close);
    DigitsConcat(open, part);
    DigitsKeep(part);
  }

  lemma GroupFilters(sep: string, part: string)
    requires sep == " " || sep == "-"
    requires AllDigits(part)
    ensures Clean(Group(sep, part)) == part && DigitsOf(Group(sep, part)) == part
  {
    if part != [] {
      CleanConcat(sep, part);
      DigitsConcat(sep, part);
      Punctuation(sep);
      CleanKeeps(part);
      DigitsKeep(part);
    }
  }

  /** Both filters distribute over the five parts of the mask. */
  lemma CleanOfFive(a: string, b: string, c: string, e: string, f: string)
    ensures Clean(a + b + c + e + f) == Clean(a) + Clean(b) + Clean(c) + Clean(e) + Clean(f)
  {
    CleanConcat(a, b);
    CleanConcat(a + b, c);
    CleanConcat(a + b + c, e);
    CleanConcat(a + b + c + e, f);
  }

  lemma DigitsOfFive(a: string, b: string, c: string, e: string, f: string)
    ensures DigitsOf(a + b + c + e + f) == DigitsOf(a) + DigitsOf(b) + DigitsOf(c) + DigitsOf(e) + DigitsOf(f)
  {
    DigitsConcat(a, b);
    DigitsConcat(a + b, c);
    DigitsConcat(a + b + c, e);
    DigitsConcat(a + b + c + e, f);
  }

  /** Cleaning the mask leaves '+' and the first eleven digits; the digits
      of the mask are the first eleven digits. */
  lemma MaskFilters(d: string)
    requires AllDigits(d)
    ensures Clean(Mask(d)) == "+" + Take11(d)
    ensures DigitsOf(Mask(d)) == Take11(d)
  {
    MaskClean(d);
    MaskDigits(d);
  }

  lemma MaskClean(d: string)
    requires AllDigits(d)
    ensures Clean(Mask(d)) == "+" + Take11(d)
  {
    var p1, p2, p3 := Slice(d, 0, 1), Slice(d, 1, 4), Slice(d, 4, 7);
    var p4, p5 := Slice(d, 7, 9), Slice(d, 9, 11);
    PartsAreDigits(d);
    LeadFilters(p1);
    AreaFilters(p2);
    GroupFilters(" ", p3);
    GroupFilters("-", p4);
    GroupFilters("-", p5);
    CleanOfParts(Lead(p1), AreaPart(p2), Group(" ", p3), Group("-", p4), Group("-", p5), p1, p2, p3, p4, p5);
    PartsAreFirstEleven(d);
  }

  lemma CleanOfParts(a: string, b: string, c: string, e: string, f: string,
                     p1: string, p2: string, p3: string, p4: string, p5: string)
    requires Clean(a) == "+" + p1 && Clean(b) == p2 && Clean(c) == p3 && Clean(e) == p4 && Clean(f) == p5
    ensures Clean(a + b + c + e + f) == "+" + (p1 + p2 + p3 + p4 + p5)
  {
    CleanOfFive(a, b, c, e, f);
    PrefixRegroups("+", p1, p2, p3, p4, p5);
  }

  lemma MaskDigits(d: string)
    requires AllDigits(d)
    ensures DigitsOf(Mask(d)) == Take11(d)
  {
    var p1, p2, p3 := Slice(d, 0, 1), Slice(d, 1, 4), Slice(d, 4, 7);
    var p4, p5 := Slice(d, 7, 9), Slice(d, 9, 11);
    PartsAreDigits(d);
    LeadFilters(p1);
    AreaFilters(p2);
    GroupFilters(" ", p3);
    GroupFilters("-", p4);
    GroupFilters("-", p5);
    DigitsOfParts(Lead(p1), AreaPart(p2), Group(" ", p3), Group("-", p4), Group("-", p5), p1, p2, p3, p4, p5);
    PartsAreFirstEleven(d);
  }

  lemma DigitsOfParts(a: string, b: string, c: string, e: string, f: string,
                      p1: string, p2: string, p3: string, p4: string, p5: string)
    requires DigitsOf(a) == p1 && DigitsOf(b) == p2 && DigitsOf(c) == p3 && DigitsOf(e) == p4 && DigitsOf(f) == p5
    ensures DigitsOf(a + b + c + e + f) == p1 + p2 + p3 + p4 + p5
  {
    DigitsOfFive(a, b, c, e, f);
  }

  lemma PartsAreDigits(d: string)
    requires AllDigits(d)
    ensures AllDigits(Slice(d, 0, 1)) && AllDigits(Slice(d, 1, 4)) && AllDigits(Slice(d, 4, 7))
    ensures AllDigits(Slice(d, 7, 9)) && AllDigits(Slice(d, 9, 11))
  {
    SliceDigits(d, 0, 1);
    SliceDigits(d, 1, 4);
    SliceDigits(d, 4, 7);
    SliceDigits(d, 7, 9);
    SliceDigits(d, 9, 11);
  }

  lemma SliceDigits(d: string, a: nat, b: nat)
    requires AllDigits(d) && a <= b
    ensures AllDigits(Slice(d, a, b))
  {
  }

  lemma PrefixRegroups(x: string, p1: string, p2: string, p3: string, p4: string, p5: string)
    ensures x + p1 + p2 + p3 + p4 + p5 == x + (p1 + p2 + p3 + p4 + p5)
  {
  }

  lemma SliceOfTake(d: string, a: nat, b: nat)
    requires a <= b <= 11
    ensures Slice(Take11(d), a, b) == Slice(d, a, b)
  {
  }

  /** Digits after the eleventh are dropped. */
  lemma MaskIgnoresExtraDigits(d: string)
    ensures Mask(Take11(d)) == Mask(d)
  {
    SliceOfTake(d, 0, 1);
    SliceOfTake(d, 1, 4);
    SliceOfTake(d, 4, 7);
    SliceOfTake(d, 7, 9);
    SliceOfTake(d, 9, 11);
  }

  /** The first digit of a cleaned Russian number is 7. */
  lemma RussianLeadsWithSeven(cleaned: string)
    requires IsRussian(cleaned)
    ensures DigitsOf(cleaned) != [] && DigitsOf(cleaned)[0] == '7'
  {
    if StartsWith(cleaned, "7") {
      assert cleaned == [cleaned[0]] + cleaned[1..];
      DigitsConcat([cleaned[0]], cleaned[1..]);
    } else {
      assert cleaned == [cleaned[0]] + ([cleaned[1]] + cleaned[2..]);
      DigitsConcat([cleaned[0]], [cleaned[1]] + cleaned[2..]);
      DigitsConcat([cleaned[1]], cleaned[2..]);
    }
  }

  /** A Russian number is shown with '+7' in front, and its digits are the
      first eleven digits of the input. */
  lemma FormatPhoneRussian(text: string)
    requires IsRussian(Clean(text))
    ensures StartsWith(FormatPhone(text), "+7")
    ensures DigitsOf(FormatPhone(text)) == Take11(DigitsOf(Clean(text)))
  {
    var d := DigitsOf(Clean(text));
    RussianLeadsWithSeven(Clean(text));
    assert Slice(d, 0, 1) == "7";
    MaskFilters(d);
  }

  /** A complete number reads '+7 (AAA) BBB-CC-DD'. */
  lemma MaskFullNumber(d: string)
    requires |d| >= 11 && d[0] == '7'
    ensures Mask(d) == "+7" + (" (" + d[1..4] + ")") + (" " + d[4..7]) + ("-" + d[7..9]) + ("-" + d[9..11])
  {
    assert Slice(d, 0, 1) == "7";
  }

  /** The closing bracket appears exactly when the area code has its three
      digits. */
  lemma MaskClosingBracket(d: string)
    requires AllDigits(d)
    ensures ')' in Mask(d) <==> |d| >= 4
  {
    var p1, p2, p3 := Slice(d, 0, 1), Slice(d, 1, 4), Slice(d, 4, 7);
    var p4, p5 := Slice(d, 7, 9), Slice(d, 9, 11);
    assert ')' !in p1 && ')' !in p2 && ')' !in p3 && ')' !in p4 && ')' !in p5;
    assert ')' !in Lead(p1);
    assert ')' !in Group(" ", p3) && ')' !in Group("-", p4) && ')' !in Group("-", p5);
    if |d| >= 4 {
      assert AreaPart(p2) == " (" + p2 + ")";
      assert AreaPart(p2)[|AreaPart(p2)| - 1] == ')';
    } else {
      assert ')' !in AreaPart(p2);
    }
  }

  /** Formatting an already formatted value returns it unchanged. */
  lemma FormatPhoneIdempotent(text: string)
    ensures FormatPhone(FormatPhone(text)) == FormatPhone(text)
  {
    var cleaned := Clean(text);
    if IsRussian(cleaned) {
      var d := DigitsOf(cleaned);
      var shown := Mask(d);
      RussianLeadsWithSeven(cleaned);
      MaskFilters(d);
      var e := Take11(d);
      assert Clean(shown) == "+" + e;
      assert StartsWith("+" + e, "+7");
      DigitsConcat("+", e);
      NoDigits("+");
      DigitsKeep(e);
      assert DigitsOf(Clean(shown)) == e;
      MaskIgnoresExtraDigits(d);
    } else {
      CleanKeeps(cleaned);
    }
  }

  // ---------------------------------------------------------------------------
  // The one-time code

  /** The code the screen accepts. */
  const ExpectedOtp := "123456"

  /** `value.slice(-1)`: the last character, or nothing. */
  function LastChar(value: string): (r: string)
    ensures value == [] ==> r == []
    ensures value != [] ==> r == [value[|value| - 1]]
  {
    if value == [] then [] else value[|value| - 1..]
  }

  /** `handleOtpChange` on the code as a whole: the cell at `index` takes the
      last character of `value` (nothing deletes it), and a cell past the end
      lands right after the code, since the holes in between join as empty
      text. */
  function OtpChange(otp: string, index: nat, value: string): (r: string)
    ensures |r| == (if index < |otp| then |otp| - 1 else |otp|) + |LastChar(value)|
    ensures index < |otp| ==> r[..index] == otp[..index] && r[index + |LastChar(value)|..] == otp[index + 1..]
    ensures index >= |otp| ==> r[..|otp|] == otp
  {
    if index < |otp| then otp[..index] + LastChar(value) + otp[index + 1..]
    else otp + LastChar(value)
  }

  /** A non-empty value replaces exactly the one position. */
  lemma OtpChangeReplaces(otp: string, index: nat, value: string)
    requires index < |otp| && value != []
    ensures |OtpChange(otp, index, value)| == |otp|
    ensures OtpChange(otp, index, value)[index] == value[|value| - 1]
    ensures forall k :: 0 <= k < |otp| && k != index ==> OtpChange(otp, index, value)[k] == otp[k]
  {
  }

  /** An empty value removes that position and keeps the rest in order. */
  lemma OtpChangeDeletes(otp: string, index: nat)
    requires index < |otp|
    ensures |OtpChange(otp, index, "")| == |otp| - 1
    ensures forall k :: 0 <= k < index ==> OtpChange(otp, index, "")[k] == otp[k]
    ensures forall k :: index <= k < |otp| - 1 ==> OtpChange(otp, index, "")[k] == otp[k + 1]
  {
  }

  /** `otpCode.trim() === '123456'` */
  predicate OtpAccepted(code: string)
  {
    Trim(code) == ExpectedOtp
  }

  /** `code` is '123456' starting at `a`, with only whitespace around it. */
  predicate PaddedOtp(code: string, a: nat)
  {
    && a + 6 <= |code| && code[a..a + 6] == ExpectedOtp
    && (forall i :: 0 <= i < a ==> IsSpace(code[i]))
    && (forall i :: a + 6 <= i < |code| ==> IsSpace(code[i]))
  }

  /** The code is accepted exactly when it is '123456' with whitespace, and
      only whitespace, around it. */
  lemma OtpAcceptedIff(code: string)
    ensures OtpAccepted(code) <==> exists a: nat :: PaddedOtp(code, a)
  {
    if OtpAccepted(code) {
      var a := TrimIsMiddle(code);
      assert PaddedOtp(code, a);
    }
    if exists a: nat :: PaddedOtp(code, a) {
      var a: nat :| PaddedOtp(code, a);
      PaddedOtpTrims(code, a);
    }
  }

  lemma PaddedOtpTrims(code: string, a: nat)
    requires PaddedOtp(code, a)
    ensures OtpAccepted(code)
  {
    assert code == code[..a] + ExpectedOtp + code[a + 6..];
    TrimPadded(code[..a], ExpectedOtp, code[a + 6..]);
  }

  /** `parts.join('')` grows by the appended part. */
  lemma {:induction false} JoinAppend(parts: seq<string>, x: string)
    ensures Join(parts + [x], "") == Join(parts, "") + x
  {
    if parts == [] {
      assert parts + [x] == [x];
    } else if |parts| == 1 {
      assert parts + [x] == [parts[0], x];
      assert Join([x], "") == x;
    } else {
      assert (parts + [x])[1..] == parts[1..] + [x];
      JoinAppend(parts[1..], x);
    }
  }

  /** The cells `split('')` makes, after one cell is overwritten; `""` for a
      hole. */
  ghost predicate CellsAfterChange(cells: seq<string>, otp: string, index: nat, value: string)
  {
    && |cells| == (if index < |otp| then |otp| else index + 1)
    && (forall k :: 0 <= k < |cells| ==>
          cells[k] == if k == index then LastChar(value) else if k < |otp| then [otp[k]] else "")
  }

  /** `join('')` of two runs of cells is the join of each. */
  lemma {:induction false} JoinConcat(a: seq<string>, b: seq<string>)
    ensures Join(a + b, "") == Join(a, "") + Join(b, "")
  {
    if b == [] {
      assert a + b == a;
    } else {
      var last := b[|b| - 1];
      var front := b[..|b| - 1];
      assert a + b == (a + front) + [last];
      assert b == front + [last];
      JoinConcat(a, front);
      JoinAppend(a + front, last);
      JoinAppend(front, last);
    }
  }

  /** One cell per character joins back to the text. */
  lemma {:induction false} JoinSingles(cells: seq<string>, s: string)
    requires |cells| == |s| && forall k :: 0 <= k < |s| ==> cells[k] == [s[k]]
    ensures Join(cells, "") == s
  {
    if s != [] {
      var n := |s| - 1;
      JoinSingles(cells[..n], s[..n]);
      assert cells == cells[..n] + [cells[n]];
      JoinAppend(cells[..n], cells[n]);
      assert s == s[..n] + [s[n]];
    }
  }

  /** Holes join as nothing. */
  lemma {:induction false} JoinHoles(cells: seq<string>)
    requires forall k :: 0 <= k < |cells| ==> cells[k] == ""
    ensures Join(cells, "") == ""
  {
    if cells != [] {
      var n := |cells| - 1;
      JoinHoles(cells[..n]);
      assert cells == cells[..n] + [cells[n]];
      JoinAppend(cells[..n], cells[n]);
    }
  }

  /** Joining the changed cells gives the changed code. */
  lemma JoinChangedCells(cells: seq<string>, otp: string, index: nat, value: string)
    requires CellsAfterChange(cells, otp, index, value)
    ensures Join(cells, "") == OtpChange(otp, index, value)
  {
    if index < |otp| {
      JoinCellsInside(cells, otp, index, value);
    } else {
      JoinCellsPast(cells, otp, index, value);
    }
  }

  lemma JoinCellsInside(cells: seq<string>, otp: string, index: nat, value: string)
    requires CellsAfterChange(cells, otp, index, value) && index < |otp|
    ensures Join(cells, "") == otp[..index] + LastChar(value) + otp[index + 1..]
  {
    var last := LastChar(value);
    var before, after := cells[..index], cells[index + 1..];
    assert cells == before + [last] + after;
    JoinCellsBefore(cells, otp, index, value, index);
    JoinCellsAfter(cells, otp, index, value);
    JoinConcat(before + [last], after);
    JoinAppend(before, last);
  }

  /** The cells before the changed one join to the code before it. */
  lemma JoinCellsBefore(cells: seq<string>, otp: string, index: nat, value: string, m: nat)
    requires CellsAfterChange(cells, otp, index, value) && m <= index && m <= |otp|
    ensures Join(cells[..m], "") == otp[..m]
  {
    JoinSingles(cells[..m], otp[..m]);
  }

  /** The cells after the changed one join to the code after it. */
  lemma JoinCellsAfter(cells: seq<string>, otp: string, index: nat, value: string)
    requires CellsAfterChange(cells, otp, index, value) && index < |otp|
    ensures Join(cells[index + 1..], "") == otp[index + 1..]
  {
    JoinSingles(cells[index + 1..], otp[index + 1..]);
  }

  /** The holes between the code and a cell past its end join to nothing. */
  lemma JoinCellsHoles(cells: seq<string>, otp: string, index: nat, value: string)
    requires CellsAfterChange(cells, otp, index, value) && |otp| <= index
    ensures Join(cells[|otp|..index], "") == ""
  {
    JoinHoles(cells[|otp|..index]);
  }

  lemma JoinCellsPast(cells: seq<string>, otp: string, index: nat, value: string)
    requires CellsAfterChange(cells, otp, index, value) && |otp| <= index
    ensures Join(cells, "") == otp + LastChar(value)
  {
    var last := LastChar(value);
    var chars, holes := cells[..|otp|], cells[|otp|..index];
    assert cells == chars + holes + [last];
    JoinCellsBefore(cells, otp, index, value, |otp|);
    assert otp[..|otp|] == otp;
    JoinCellsHoles(cells, otp, index, value);
    JoinConcat(chars, holes);
    JoinAppend(chars + holes, last);
  }

  /** `otpCode.split('')` followed by `currentOtp[index] = value.slice(-1)`. */
  method ChangedCells(code: string, index: nat, value: string) returns (cells: array<string>)
    ensures fresh(cells)
    ensures CellsAfterChange(cells[..], code, index, value)
  {
    var n := if index < |code| then |code| else index + 1;
    cells := new string[n];
    var k := 0;
    while k < n
      modifies cells
      invariant 0 <= k <= n
      invariant forall j :: 0 <= j < k ==> cells[j] == if j < |code| then [code[j]] else ""
    {
      cells[k] := if k < |code| then [code[k]] else "";
      k := k + 1;
    }
    cells[index] := LastChar(value);
  }

  /** `currentOtp.join('')` */
  method JoinCells(cells: array<string>) returns (joined: string)
    ensures joined == Join(cells[..], "")
  {
    joined := "";
    var i := 0;
    while i < cells.Length
      invariant 0 <= i <= cells.Length
      invariant joined == Join(cells[..i], "")
    {
      assert cells[..i + 1] == cells[..i] + [cells[i]];
      JoinAppend(cells[..i], cells[i]);
      joined := joined + cells[i];
      i := i + 1;
    }
    assert cells[..i] == cells[..];
  }

  // ---------------------------------------------------------------------------
  // The resend countdown

  /** One tick of the interval: `prev <= 1 ? 0 : prev - 1`. */
  function CountdownStep(prev: int): (next: int)
    ensures next >= 0
    ensures prev >= 1 ==> next == prev - 1
    ensures prev <= 1 ==> next == 0
  {
    if prev <= 1 then 0 else prev - 1
  }

  /** The countdown after `ticks` ticks. */
  function CountdownAfter(start: int, ticks: nat): (r: int)
    ensures ticks > 0 ==> r >= 0
    ensures ticks > 0 && start <= 1 ==> r == 0
  {
    if ticks == 0 then start else CountdownStep(CountdownAfter(start, ticks - 1))
  }

  /** From a non-negative start the countdown never grows and never goes
      negative, and it stands at `start - ticks` until it reaches 0. */
  lemma {:induction false} CountdownDescends(start: nat, ticks: nat)
    ensures 0 <= CountdownAfter(start, ticks) <= start
    ensures ticks <= start ==> CountdownAfter(start, ticks) == start - ticks
    ensures ticks >= start ==> CountdownAfter(start, ticks) == 0
  {
    if ticks > 0 {
      CountdownDescends(start, ticks - 1);
    }
  }

  /** The resend button is enabled unless a code was sent and the countdown
      is still running. */
  predicate CanResend(otpSent: bool, countdown: int)
  {
    !(otpSent && countdown > 0)
  }

  /** After a send, resending stays blocked for exactly 60 ticks. */
  lemma ResendAfterSixtyTicks(ticks: nat)
    ensures CanResend(true, CountdownAfter(60, ticks)) <==> ticks >= 60
  {
    CountdownDescends(60, ticks);
  }

  // ---------------------------------------------------------------------------
  // Sign-out

  /** How `supabase.auth.signOut()` ended. */
  datatype SignOutResult = SignedOut | SignOutError(message: string) | SignOutThrew(thrown: Thrown)

  /** `(error as Error).message`: a thrown value that is not an `Error` has
      no message, which concatenates as 'undefined'. */
  function ThrownText(t: Thrown): string
  {
    match t
    case ErrorObj(m) => m
    case NonError => "undefined"
  }

  const SignedOutMessage := "Вы вышли из системы."
  const SignOutFailurePrefix := "Ошибка выхода: "

  /** The toast `handleLogout` shows. */
  function LogoutToast(result: SignOutResult): (t: string)
    ensures result.SignedOut? ==> t == SignedOutMessage
    ensures result.SignOutError? ==> t == SignOutFailurePrefix + result.message
    ensures !result.SignedOut? ==> StartsWith(t, SignOutFailurePrefix)
  {
    match result
    case SignedOut => SignedOutMessage
    case SignOutError(m) => SignOutFailurePrefix + m
    case SignOutThrew(t) => SignOutFailurePrefix + ThrownText(t)
  }

  // ---------------------------------------------------------------------------
  // The screen

  class RootProfileState {
    var user: Option<string>
    var phoneInput: string
    var otpCode: string
    var otpSent: bool
    var countdown: int
    var toastVisible: bool
    var toastMessage: string

    constructor ()
      ensures user == None && phoneInput == "" && otpCode == "" && !otpSent && countdown == 0
      ensures !toastVisible && toastMessage == ""
    {
      user := None;
      phoneInput, otpCode := "", "";
      otpSent, countdown := false, 0;
      toastVisible, toastMessage := false, "";
    }

    /** The phone field's `onChangeText`: the typed text is stored masked. */
    method ChangePhone(text: string)
      modifies this
      ensures phoneInput == FormatPhone(text)
      ensures user == old(user) && otpCode == old(otpCode) && otpSent == old(otpSent) && countdown == old(countdown)
      ensures toastVisible == old(toastVisible) && toastMessage == old(toastMessage)
    {
      phoneInput := FormatPhone(text);
    }

    /** `handleSendOtp`: with no phone only a toast; otherwise the code counts
      as sent and the countdown starts at 60. */
    method HandleSendOtp()
      modifies this
      ensures user == old(user) && phoneInput == old(phoneInput) && otpCode == old(otpCode)
      ensures toastVisible
      ensures old(phoneInput) == "" ==>
        otpSent == old(otpSent) && countdown == old(countdown) && toastMessage == "Введите номер телефона."
      ensures old(phoneInput) != "" ==> otpSent && countdown == 60 && toastMessage == "OTP отправлен."
    {
      if phoneInput == "" {
        toastVisible, toastMessage := true, "Введите номер телефона.";
        return;
      }
      otpSent := true;
      countdown := 60;
      toastVisible, toastMessage := true, "OTP отправлен.";
    }

    /** One tick of the countdown interval. */
    method Tick()
      modifies this
      ensures countdown == CountdownStep(old(countdown))
      ensures user == old(user) && phoneInput == old(phoneInput) && otpCode == old(otpCode) && otpSent == old(otpSent)
      ensures toastVisible == old(toastVisible) && toastMessage == old(toastMessage)
    {
      countdown := CountdownStep(countdown);
    }

    /** `handleVerifyOtp`: acceptance clears the flag and the code, rejection
      leaves both as they were. */
    method HandleVerifyOtp()
      modifies this
      ensures user == old(user) && phoneInput == old(phoneInput) && countdown == old(countdown)
      ensures toastVisible
      ensures !OtpAccepted(old(otpCode)) ==>
        otpSent == old(otpSent) && otpCode == old(otpCode) && toastMessage == "Неверный OTP код."
      ensures OtpAccepted(old(otpCode)) ==>
        !otpSent && otpCode == "" && toastMessage == "OTP успешно верифицирован."
    {
      var accepted := OtpAccepted(otpCode);
      if !accepted {
        toastVisible, toastMessage := true, "Неверный OTP код.";
      } else {
        toastVisible, toastMessage := true, "OTP успешно верифицирован.";
        otpSent := false;
        otpCode := "";
      }
    }

    /** `handleOtpChange`: the code is split into one-character cells, the
      cell at `index` is overwritten, and the cells are joined back. */
    method HandleOtpChange(index: nat, value: string)
      modifies this
      ensures otpCode == OtpChange(old(otpCode), index, value)
      ensures user == old(user) && phoneInput == old(phoneInput) && otpSent == old(otpSent) && countdown == old(countdown)
      ensures toastVisible == old(toastVisible) && toastMessage == old(toastMessage)
    {
      var code := otpCode;
      var cells := ChangedCells(code, index, value);
      var joined := JoinCells(cells);
      JoinChangedCells(cells[..], code, index, value);
      otpCode := joined;
    }

    /** `handleLogout`: success forgets the user, any failure only toasts. */
    method HandleLogout(result: SignOutResult)
      modifies this
      ensures user == (if result.SignedOut? then None else old(user))
      ensures toastVisible && toastMessage == LogoutToast(result)
      ensures phoneInput == old(phoneInput) && otpCode == old(otpCode) && otpSent == old(otpSent) && countdown == old(countdown)
    {
      match result {
        case SignedOut =>
          user := None;
          toastVisible, toastMessage := true, SignedOutMessage;
        case SignOutError(m) =>
          toastVisible, toastMessage := true, SignOutFailurePrefix + m;
        case SignOutThrew(t) =>
          toastVisible, toastMessage := true, SignOutFailurePrefix + ThrownText(t);
      }
    }
  }
}
