/** `analyzeFace`: the answer of the face-expression model turned into a
    Russian label and a confidence, with every failure mapped to one of two
    error labels and confidence 0. Reading the photo and the HTTP exchange
    are the inputs here. */
module FaceAnalysis {
  import opened Wrappers
  import opened Strings
  import StatsScreen

  /** `EMOTION_TRANSLATIONS`, in declaration order. */
  const LabelTranslations: seq<(string, string)> := [
    ("angry", "Злой"), ("disgust", "Отвращение"), ("fear", "Страх"),
    ("happy", "Счастливый"), ("sad", "Грустный"), ("surprise", "Удивление"),
    ("neutral", "Нейтральный"), ("unknown", "Неизвестно")]

  const UnknownLabel := "Неизвестно"
  const ServerErrorLabel := "Ошибка сервера"
  const UnrecognisedLabel := "Не удалось распознать"
  const BadFormatMessage := "Некорректный формат ответа от сервера"

  /** One element of the model's answer: its `label` (absent when missing)
      and its `score`. */
  datatype Prediction = Prediction(emotion: Option<string>, score: real)

  /** The parsed answer: something that is not an array, or an array with
      its first element, if any. */
  datatype Json = NotArray | PredictionArray(first: Option<Prediction>)

  /** How far the request got: a value thrown while reading the photo,
      sending the request or parsing the answer; an answer with a status
      that is not OK; or an OK answer with its parsed body. */
  datatype Exchange =
    | Threw(error: Thrown)
    | NotOk(status: nat, body: string)
    | Answered(data: Json)

  datatype Analysis = Analysis(emotion: string, confidence: real)

  /** A valid prediction, or the value thrown on the way to it. */
  datatype Outcome = Valid(prediction: Prediction) | Failed(error: Thrown)

  /** The label table's values, the only labels a successful analysis gives. */
  predicate IsTranslation(emotion: string)
  {
    exists i :: 0 <= i < |LabelTranslations| && LabelTranslations[i].1 == emotion
  }

  /** `EMOTION_TRANSLATIONS[key] || EMOTION_TRANSLATIONS.unknown` */
  function TranslateLabel(key: string): (emotion: string)
    ensures IsTranslation(emotion)
    ensures Lookup(LabelTranslations, key).Some? ==> emotion == Lookup(LabelTranslations, key).value
    ensures Lookup(LabelTranslations, key).None? ==> emotion == UnknownLabel
  {
    match Lookup(LabelTranslations, key)
    case Some(t) =>
      assert (key, t) in LabelTranslations;
      t
    case None =>
      assert LabelTranslations[7].1 == UnknownLabel;
      UnknownLabel
  }

  /** The message of the error thrown for an answer that is not OK:
      'Ошибка API (<status>): <first 100 characters of the body>'. */
  function ApiErrorMessage(status: nat, body: string): string
  {
    "Ошибка API (" + (NatToString(status) + ("): " + body[..if |body| < 100 then |body| else 100]))
  }

  /** The label of the error path: 'Ошибка сервера' for an `Error` whose
      message mentions 'API', 'Не удалось распознать' otherwise. */
  function ErrorLabel(t: Thrown): (emotion: string)
    ensures emotion == ServerErrorLabel <==> t.ErrorObj? && Contains(t.message, "API")
    ensures emotion == UnrecognisedLabel <==> !(t.ErrorObj? && Contains(t.message, "API"))
    ensures !IsTranslation(emotion)
  {
    assert forall i :: 0 <= i < |LabelTranslations| ==>
      LabelTranslations[i].1 != ServerErrorLabel && LabelTranslations[i].1 != UnrecognisedLabel;
    if t.ErrorObj? && Contains(t.message, "API") then ServerErrorLabel else UnrecognisedLabel
  }

  /** The shape check: an array whose first element has a non-empty
      label. */
  predicate WellFormed(data: Json)
  {
    data.PredictionArray? && data.first.Some? && data.first.value.emotion.Some? && data.first.value.emotion.value != ""
  }

  /** The value `analyzeFace` throws or returns, before its `catch`. */
  function OutcomeOf(x: Exchange): (r: Outcome)
    ensures r.Valid? <==> x.Answered? && WellFormed(x.data)
    ensures r.Valid? ==> r.prediction == x.data.first.value
    ensures x.NotOk? ==> r == Failed(ErrorObj(ApiErrorMessage(x.status, x.body)))
    ensures x.Answered? && r.Failed? ==> r.error == ErrorObj(BadFormatMessage)
  {
    match x
    case Threw(t) => Failed(t)
    case NotOk(status, body) => Failed(ErrorObj(ApiErrorMessage(status, body)))
    case Answered(data) =>
      if WellFormed(data) then Valid(data.first.value) else Failed(ErrorObj(BadFormatMessage))
  }

  /** `analyzeFace`: a valid answer gives the translation of its trimmed,
      lower-cased label and its score; any failure gives an error label and
      confidence 0. */
  function AnalyzeFace(x: Exchange): (a: Analysis)
  {
    match OutcomeOf(x)
    case Valid(p) => Analysis(SuccessLabel(p.emotion.value), p.score)
    case Failed(t) => Analysis(ErrorLabel(t), 0.0)
  }

  /** A valid answer is labelled with the translation of its normalised
      label, one of the eight table values, and keeps the model's score. */
  lemma AnalyzeFaceSuccess(x: Exchange)
    requires OutcomeOf(x).Valid?
    ensures var p := OutcomeOf(x).prediction;
      && AnalyzeFace(x) == Analysis(SuccessLabel(p.emotion.value), p.score)
      && IsTranslation(AnalyzeFace(x).emotion)
  {
  }

  /** The label of a valid answer: its trimmed, lower-cased label looked up
      in the table. */
  function SuccessLabel(raw: string): (emotion: string)
    ensures IsTranslation(emotion)
  {
    TranslateLabel(ToLower(Trim(raw)))
  }

  /** A label is normalised before the lookup: surrounding spaces and
      capitals do not matter. */
  lemma LabelNormalised(key: string, p: string, q: string)
    requires forall i :: 0 <= i < |p| ==> IsSpace(p[i])
    requires forall i :: 0 <= i < |q| ==> IsSpace(q[i])
    requires key != [] && !IsSpace(key[0]) && !IsSpace(key[|key| - 1])
    ensures SuccessLabel(p + key + q) == TranslateLabel(ToLower(key))
  {
    TrimPadded(p, key, q);
  }

  /** Lower-casing comes after trimming, so the label 'Happy' and the label
      '  HAPPY ' both read as the key 'happy'. */
  lemma LabelCaseIgnored(key: string)
    ensures SuccessLabel(ToLower(key)) == SuccessLabel(key)
  {
    TrimToLowerCommute(key);
    ToLowerIdempotent(Trim(key));
  }

  /** Every failure has confidence 0 and one of the two error labels. */
  lemma AnalyzeFaceFailed(x: Exchange)
    requires OutcomeOf(x).Failed?
    ensures AnalyzeFace(x).confidence == 0.0
    ensures AnalyzeFace(x).emotion == ServerErrorLabel || AnalyzeFace(x).emotion == UnrecognisedLabel
  {
  }

  /** An answer that is not OK always ends as 'Ошибка сервера'. */
  lemma NotOkIsServerError(status: nat, body: string)
    ensures AnalyzeFace(NotOk(status, body)) == Analysis(ServerErrorLabel, 0.0)
  {
    var n := NatToString(status) + ("): " + body[..if |body| < 100 then |body| else 100]);
    assert "Ошибка API (" == "Ошибка " + "API" + " (";
    assert ApiErrorMessage(status, body) == "Ошибка " + "API" + (" (" + n);
    ContainsMiddle("Ошибка ", "API", " (" + n);
  }

  /** An answer of the wrong shape ends as 'Не удалось распознать'. */
  lemma BadShapeIsUnrecognised(data: Json)
    requires !WellFormed(data)
    ensures AnalyzeFace(Answered(data)) == Analysis(UnrecognisedLabel, 0.0)
  {
    FirstCharAbsent(BadFormatMessage, "API");
  }

  predicate StartsCyrillic(s: string)
  {
    s != [] && StatsScreen.IsCyrillic(s[0])
  }

  /** Starts with a capital Cyrillic letter: А..Я or Ё. */
  predicate StartsCapitalCyrillic(s: string)
  {
    s != [] && ('\U{410}' <= s[0] <= '\U{42F}' || s[0] == '\U{401}')
  }

  /** Every label `analyzeFace` gives, on either path, starts with a
      capital Cyrillic letter, and so with a character of the Cyrillic block. */
  lemma LabelStartsCyrillic(x: Exchange)
    ensures StartsCapitalCyrillic(AnalyzeFace(x).emotion)
    ensures StartsCyrillic(AnalyzeFace(x).emotion)
  {
    match OutcomeOf(x)
    case Valid(p) =>
      var emotion := SuccessLabel(p.emotion.value);
      var i :| 0 <= i < |LabelTranslations| && LabelTranslations[i].1 == emotion;
      TranslationsStartCyrillic(i);
    case Failed(t) =>
      assert StartsCapitalCyrillic(ServerErrorLabel) && StartsCapitalCyrillic(UnrecognisedLabel);
      assert StartsCyrillic(ServerErrorLabel) && StartsCyrillic(UnrecognisedLabel);
  }

  lemma TranslationsStartCyrillic(i: nat)
    requires i < |LabelTranslations|
    ensures StartsCapitalCyrillic(LabelTranslations[i].1)
    ensures StartsCyrillic(LabelTranslations[i].1)
  {
  }

  /** The labels of a week of analyses, stored as emotion rows, weigh
      nothing in the statistics screen's happiness index once lower-cased,
      so any non-empty week of them scores exactly 50. */
  lemma StoredLabelsIndexFifty(week: seq<Exchange>)
    requires week != []
    ensures var rows := Labels(week);
      StatsScreen.HappinessIndexOf(StatsScreen.ProcessedStats(rows)) == Some(50)
  {
    var rows := Labels(week);
    forall j | 0 <= j < |rows| ensures rows[j] != [] && StatsScreen.IsCyrillic(rows[j][0]) {
      LabelStartsCyrillic(week[j]);
      assert StartsCyrillic(rows[j]);
    }
    StatsScreen.CyrillicRowsIndexFifty(rows);
  }

  function Labels(week: seq<Exchange>): (rows: seq<string>)
    ensures |rows| == |week| && forall j :: 0 <= j < |week| ==> rows[j] == AnalyzeFace(week[j]).emotion
  {
    if week == [] then [] else [AnalyzeFace(week[0]).emotion] + Labels(week[1..])
  }
}
