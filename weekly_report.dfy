/** `summarizeEmotions`: the week's emotion rows are counted into a
    dictionary, the counts are written into a prompt for the chat model, and
    the model's first message is stored as the weekly report. The query, the
    model call and the insert are inputs here; every error is rethrown. */
module WeeklyReport {
  import opened Wrappers
  import opened Strings
  import opened Tally

  const PromptPrefix := "Сформулируйте недельный отчет по эмоциям: "
  const InvalidResponseMessage := "Invalid response from the AI service"

  /** `${emotion}: ${count}` */
  function PairText(e: Entry): string
  {
    e.key + (": " + NatToString(e.count))
  }

  function PairTexts(entries: seq<Entry>): (texts: seq<string>)
    ensures |texts| == |entries|
    ensures forall i :: 0 <= i < |entries| ==> texts[i] == PairText(entries[i])
  {
    if entries == [] then [] else [PairText(entries[0])] + PairTexts(entries[1..])
  }

  /** The prompt: the fixed prefix, then the pairs joined by ', '. */
  function Prompt(entries: seq<Entry>): (prompt: string)
    ensures StartsWith(prompt, PromptPrefix)
    ensures entries == [] ==> prompt == PromptPrefix
  {
    PromptPrefix + Join(PairTexts(entries), ", ")
  }

  /** A string found in `s` is found in anything that ends with `s`. */
  lemma ContainsAfter(p: string, s: string, sub: string)
    requires Contains(s, sub)
    ensures Contains(p + s, sub)
  {
    var i: nat :| i <= |s| && OccursAt(s, sub, i);
    assert (p + s)[|p| + i..|p| + i + |sub|] == s[i..i + |sub|];
    assert OccursAt(p + s, sub, |p| + i);
  }

  /** Every part of a joined string occurs in it. */
  lemma {:induction false} JoinContainsPart(parts: seq<string>, sep: string, k: nat)
    requires k < |parts|
    ensures Contains(Join(parts, sep), parts[k])
  {
    if |parts| == 1 {
      assert OccursAt(parts[0], parts[0], 0);
    } else if k == 0 {
      ContainsMiddle([], parts[0], sep + Join(parts[1..], sep));
      assert [] + parts[0] + (sep + Join(parts[1..], sep)) == Join(parts, sep);
    } else {
      JoinContainsPart(parts[1..], sep, k - 1);
      ContainsAfter(parts[0] + sep, Join(parts[1..], sep), parts[k]);
    }
  }

  /** The prompt names every emotion of the week with its number of rows,
      and those numbers add up to the number of rows. */
  lemma PromptCountsEveryEmotion(rows: seq<string>)
    ensures Total(TallyOf(rows)) == |rows|
    ensures forall e :: e in rows ==> Contains(Prompt(TallyOf(rows)), e + (": " + NatToString(multiset(rows)[e])))
  {
    var t := TallyOf(rows);
    TallyCounts(rows);
    forall e | e in rows ensures Contains(Prompt(t), e + (": " + NatToString(multiset(rows)[e]))) {
      var j :| 0 <= j < |t| && t[j].key == e;
      JoinContainsPart(PairTexts(t), ", ", j);
      ContainsAfter(PromptPrefix, Join(PairTexts(t), ", "), PairText(t[j]));
    }
  }

  /** One element of `response.data.messages`. */
  datatype Message = Message(content: string)

  /** `response.data`: absent, or present with `messages` absent or not. */
  datatype Answer = NoData | Data(messages: Option<seq<Message>>)

  /** How the model call ended: it threw, or it answered. */
  datatype Post = PostThrew(error: Thrown) | Posted(answer: Answer)

  /** The report in a valid answer: the content of the first message;
      nothing when `data` or `messages` is missing or `messages` is empty. */
  function ReportOf(answer: Answer): (report: Option<string>)
    ensures report.Some? <==> answer.Data? && answer.messages.Some? && answer.messages.value != []
    ensures report.Some? ==> report.value == answer.messages.value[0].content
  {
    match answer
    case NoData => None
    case Data(None) => None
    case Data(Some(messages)) => if messages == [] then None else Some(messages[0].content)
  }

  /** The backend calls after the week's rows were read. */
  datatype Call = PostPrompt(prompt: string) | InsertReport(report: string, userId: string)

  /** How `summarizeEmotions` ends: with a rethrown error, with the
      `TypeError` of `reduce` on a missing row list, or by returning. */
  datatype Outcome = Rethrows(error: Thrown) | NullRowsThrow | Returns

  datatype Run = Run(calls: seq<Call>, outcome: Outcome)

  /** The whole of `summarizeEmotions` for given backend answers. */
  function Summarize(userId: string, fetched: QueryResult<string>, post: Post, insertError: Option<Thrown>): (run: Run)
    ensures fetched.QueryFailed? ==> run == Run([], Rethrows(fetched.error))
    ensures fetched.QueryOk? && fetched.data.None? ==> run == Run([], NullRowsThrow)
    ensures fetched.QueryOk? && fetched.data.Some? ==>
      |run.calls| >= 1 && run.calls[0] == PostPrompt(Prompt(TallyOf(fetched.data.value)))
    ensures run.outcome.Returns? ==> insertError.None?
  {
    match fetched
    case QueryFailed(e) => Run([], Rethrows(e))
    case QueryOk(None, _) => Run([], NullRowsThrow)
    case QueryOk(Some(rows), _) =>
      var post1 := [PostPrompt(Prompt(TallyOf(rows)))];
      match post
      case PostThrew(e) => Run(post1, Rethrows(e))
      case Posted(answer) =>
        match ReportOf(answer)
        case None => Run(post1, Rethrows(ErrorObj(InvalidResponseMessage)))
        case Some(report) =>
          var calls := post1 + [InsertReport(report, userId)];
          match insertError
          case Some(e) => Run(calls, Rethrows(e))
          case None => Run(calls, Returns)
  }

  /** An answer without a report throws 'Invalid response from the AI
      service' and stores nothing; a valid one stores the content of its
      first message for the user. */
  lemma ReportStoredIffValid(userId: string, rows: seq<string>, count: Option<int>, answer: Answer, insertError: Option<Thrown>)
    ensures var run := Summarize(userId, QueryOk(Some(rows), count), Posted(answer), insertError);
      && (ReportOf(answer).None? ==> run.outcome == Rethrows(ErrorObj(InvalidResponseMessage)) && |run.calls| == 1)
      && (ReportOf(answer).Some? ==> |run.calls| == 2 && run.calls[1] == InsertReport(answer.messages.value[0].content, userId))
  {
  }

  /** The outcome is an error exactly when some step failed, and it is that
      step's error. */
  lemma ReturnsIffAllSucceed(userId: string, fetched: QueryResult<string>, post: Post, insertError: Option<Thrown>)
    ensures var run := Summarize(userId, fetched, post, insertError);
      run.outcome.Returns? <==>
        fetched.QueryOk? && fetched.data.Some? && post.Posted? && ReportOf(post.answer).Some? && insertError.None?
    ensures var run := Summarize(userId, fetched, post, insertError);
      fetched.QueryOk? && fetched.data.Some? && post.PostThrew? ==> run.outcome == Rethrows(post.error)
    ensures var run := Summarize(userId, fetched, post, insertError);
      fetched.QueryOk? && fetched.data.Some? && post.Posted? && ReportOf(post.answer).Some? && insertError.Some? ==>
        run.outcome == Rethrows(insertError.value)
  {
  }

  /** `summarizeEmotions`: the reduce into a dictionary is `CountByKey`;
      the rest follows the calls in order. */
  method SummarizeEmotions(userId: string, fetched: QueryResult<string>, post: Post, insertError: Option<Thrown>)
    returns (calls: seq<Call>, outcome: Outcome)
    ensures Run(calls, outcome) == Summarize(userId, fetched, post, insertError)
  {
    calls := [];
    if fetched.QueryFailed? {
      return calls, Rethrows(fetched.error);
    }
    if fetched.data.None? {
      return calls, NullRowsThrow;
    }
    var summary := CountByKey(fetched.data.value);
    var prompt := Prompt(summary);
    calls := calls + [PostPrompt(prompt)];
    if post.PostThrew? {
      return calls, Rethrows(post.error);
    }
    var report := ReportOf(post.answer);
    if report.None? {
      return calls, Rethrows(ErrorObj(InvalidResponseMessage));
    }
    calls := calls + [InsertReport(report.value, userId)];
    if insertError.Some? {
      return calls, Rethrows(insertError.value);
    }
    return calls, Returns;
  }
}
