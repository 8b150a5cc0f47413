/** The password-strength hook: a score from length, digits and special
    characters, mapped to a band and the text shown under the password field;
    plus the ways the screens draw that band. */
module PasswordStrength {
  import opened Strings

  datatype Strength = Weak | Medium | Strong

  /** What the hook holds: the band and the text shown with it. */
  datatype StrengthState = StrengthState(strength: Strength, text: string)

  const WeakText := "Слишком простой"
  const MediumText := "Средняя сложность"
  const StrongText := "Надежный пароль"

  /** The text that belongs to each band. */
  function TextOf(s: Strength): string
  {
    match s
    case Weak => WeakText
    case Medium => MediumText
    case Strong => StrongText
  }

  /** The three texts are distinct, so the text tells the band. */
  lemma TextOfInjective(a: Strength, b: Strength)
    ensures TextOf(a) == TextOf(b) <==> a == b
  {
  }

  /** The hook never shows a text that does not belong to its band. */
  predicate Consistent(st: StrengthState)
  {
    st.text == TextOf(st.strength)
  }

  /** The state before `calculateStrength` is ever called. */
  function Initial(): (st: StrengthState)
    ensures st.strength == Weak && Consistent(st)
  {
    StrengthState(Weak, WeakText)
  }

  /** `/[!@#$%^&*]/` */
  predicate IsSpecial(c: char)
  {
    c in "!@#$%^&*"
  }

  predicate HasSpecial(s: string)
  {
    exists i :: 0 <= i < |s| && IsSpecial(s[i])
  }

  function Points(b: bool, n: nat): nat
  {
    if b then n else 0
  }

  /** The score: one point each for at least 8 and at least 12 characters, one
      for a digit, two for a special character. */
  function Score(password: string): (score: nat)
    ensures score <= 5
    ensures |password| < 8 ==> score <= 3
    ensures !HasDigit(password) && !HasSpecial(password) ==> score <= 2
  {
    Points(|password| >= 8, 1) + Points(|password| >= 12, 1)
    + Points(HasDigit(password), 1) + Points(HasSpecial(password), 2)
  }

  /** The band of a score: 4 and up is strong, 2 and 3 medium, below 2 weak. */
  function Band(score: nat): (s: Strength)
    ensures s == Strong <==> score >= 4
    ensures s == Weak <==> score < 2
  {
    if score >= 4 then Strong else if score >= 2 then Medium else Weak
  }

  /** `calculateStrength(password)`: both state setters run together. */
  function Evaluate(password: string): (st: StrengthState)
    ensures Consistent(st)
    ensures st.strength == Strong <==> Score(password) >= 4
    ensures st.strength == Weak <==> Score(password) < 2
  {
    var b := Band(Score(password));
    StrengthState(b, TextOf(b))
  }

  /** Bands in increasing order. */
  function Rank(s: Strength): nat
  {
    match s
    case Weak => 0
    case Medium => 1
    case Strong => 2
  }

  /** A password shorter than 8 characters is never strong. */
  lemma ShortNeverStrong(password: string)
    requires |password| < 8
    ensures Evaluate(password).strength != Strong
  {
  }

  /** A password with neither a digit nor a special character is never
      strong, however long. */
  lemma PlainNeverStrong(password: string)
    requires !HasDigit(password) && !HasSpecial(password)
    ensures Evaluate(password).strength != Strong
  {
  }

  /** Typing one more character never lowers the score. */
  lemma ScoreMonotone(password: string, c: char)
    ensures Score(password + [c]) >= Score(password)
  {
    var longer := password + [c];
    if HasDigit(password) {
      var i :| 0 <= i < |password| && IsDigit(password[i]);
      assert longer[i] == password[i];
    }
    if HasSpecial(password) {
      var i :| 0 <= i < |password| && IsSpecial(password[i]);
      assert longer[i] == password[i];
    }
  }

  /** Hence the band never drops while the user types. */
  lemma StrengthMonotone(password: string, c: char)
    ensures Rank(Evaluate(password + [c]).strength) >= Rank(Evaluate(password).strength)
  {
    ScoreMonotone(password, c);
  }

  /** Width in percent of the bar on the reset and change-password screens. */
  function BarWidth(s: Strength): (w: nat)
    ensures w == 33 || w == 66 || w == 100
    ensures w == 100 <==> s == Strong
  {
    match s
    case Weak => 33
    case Medium => 66
    case Strong => 100
  }

  /** Number of coloured segments (of three) on the sign-up form. */
  function FilledSegments(s: Strength): (n: nat)
    ensures 1 <= n <= 3
  {
    Rank(s) + 1
  }

  /** Both drawings grow strictly with the band. */
  lemma DrawingsFollowRank(a: Strength, b: Strength)
    requires Rank(a) < Rank(b)
    ensures BarWidth(a) < BarWidth(b)
    ensures FilledSegments(a) < FilledSegments(b)
  {
  }
}
