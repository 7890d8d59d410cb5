/** The answer loop of backend/controllers/interviewSessionController.js:
    fetching the next unanswered question (which completes an interview with
    none left) and submitting an answer, with the evaluator's fallbacks. */
module InterviewSession {
  import opened Common
  import opened InterviewModel
  import opened Store

  const NoActiveInterview: string := "No active interview found. Please start a new interview."
  const AllAnswered: string := "All questions have been answered. Interview complete."

  /** The caller's newest interview that is not completed. */
  function LatestActive(docs: seq<InterviewDoc>, user: string): Option<nat> {
    LastWhere(docs, (d: InterviewDoc) => d.userId == user && !d.completed)
  }

  /** `questions.find(q => !q.answer || q.answer === '')`, as a position. The
      skip mark plays no part. */
  method FindNextQuestion(qs: seq<Question>) returns (r: Option<nat>)
    ensures r.Some? ==> r.value < |qs| && Unanswered(qs[r.value])
    ensures r.Some? ==> forall j :: 0 <= j < r.value ==> !Unanswered(qs[j])
    ensures r.None? ==> forall j :: 0 <= j < |qs| ==> !Unanswered(qs[j])
  {
    var i := 0;
    while i < |qs|
      invariant 0 <= i <= |qs|
      invariant forall j :: 0 <= j < i ==> !Unanswered(qs[j])
    {
      if qs[i].answer == "" {
        return Some(i);
      }
      i := i + 1;
    }
    return None;
  }

  datatype NextQuestion = NextQuestion(id: string, question: string, interviewId: string)

  /** `getNextQuestion`. Finding no unanswered question sets `completed` and
      nothing else: neither the completion time nor the duration. */
  method GetNextQuestion(db: Db, user: string) returns (r: Response<NextQuestion>)
    requires db.Valid()
    modifies db.interviews
    ensures db.interviews == old(db.interviews)
    ensures match old(LatestActive(Docs(db.interviews), user))
      case None => r == Err(404, NoActiveInterview) && Docs(db.interviews) == old(Docs(db.interviews))
      case Some(k) =>
        var d := old(Docs(db.interviews))[k];
        match FirstWhere(d.questions, Unanswered)
        case None =>
          r == Err(404, AllAnswered) && Docs(db.interviews) == old(Docs(db.interviews))[k := d.(completed := true)]
        case Some(i) =>
          r == Ok(200, NextQuestion(d.questions[i].id, d.questions[i].questionText, d.id))
          && Docs(db.interviews) == old(Docs(db.interviews))
  {
    var found := LatestActive(Docs(db.interviews), user);
    if found.None? {
      return Err(404, NoActiveInterview);
    }
    var iv := db.interviews[found.value];
    var next := FindNextQuestion(iv.questions);
    ghost var spec := FirstWhere(iv.questions, Unanswered);
    assert next == spec by {
      if next.Some? && spec.Some? {
        assert !(next.value < spec.value) && !(spec.value < next.value);
      }
    }
    if next.None? {
      iv.completed := true;
      return Err(404, AllAnswered);
    }
    var q := iv.questions[next.value];
    r := Ok(200, NextQuestion(q.id, q.questionText, iv.id));
  }

  // ---- Evaluating an answer ----

  datatype Assessment = Assessment(feedback: string, score: int)

  /** What the evaluation request produced: it threw, or the model answered
      with some text. */
  datatype EvaluationCall = CallThrew | Answered(content: string)

  const UnparsedFeedback: string := "Your answer was evaluated. Please continue with the interview."
  const FailedCallFeedback: string := "Thank you for your answer. Let's continue with the interview."
  const DefaultScore: int := 5

  predicate IsQuote(c: char) { c == '"' || c == '\'' }

  /** The end of the longest run of characters satisfying `p` from `i`. */
  function RunEnd(s: string, i: nat, p: char -> bool): (j: nat)
    requires i <= |s|
    ensures i <= j <= |s| && (j == |s| || !p(s[j]))
    ensures forall k :: i <= k < j ==> p(s[k])
    decreases |s| - i
  {
    if i < |s| && p(s[i]) then RunEnd(s, i + 1, p) else i
  }

  predicate NotQuote(c: char) { !IsQuote(c) }

  /** The lower-case word `w` stands at `i`, ignoring ASCII case (the `i` flag). */
  predicate WordAt(s: string, i: nat, w: string) {
    i + |w| <= |s| && Lower(s[i..i + |w|]) == w
  }

  /** The capture of `/score["']?\s*:\s*([0-9]+)/i` for a match starting at `i`.
      Backtracking cannot change the outcome of this pattern, so one greedy
      pass decides it. */
  function ScoreMatchAt(s: string, i: nat): (r: Option<string>)
    ensures r.Some? ==> |r.value| > 0 && forall k :: 0 <= k < |r.value| ==> IsDigit(r.value[k])
  {
    if !WordAt(s, i, "score") then None
    else DigitsAfterColon(s, SkipQuote(s, i + 5))
  }

  /** The position past the optional quote `["']?` at `j`. */
  function SkipQuote(s: string, j: nat): (k: nat)
    requires j <= |s|
    ensures j <= k <= |s|
  {
    if j < |s| && IsQuote(s[j]) then j + 1 else j
  }

  /** The capture of `\s*:\s*([0-9]+)` matched from `j`. */
  function DigitsAfterColon(s: string, j: nat): (r: Option<string>)
    requires j <= |s|
    ensures r.Some? ==> |r.value| > 0 && forall k :: 0 <= k < |r.value| ==> IsDigit(r.value[k])
  {
    var colon := RunEnd(s, j, IsSpace);
    if colon < |s| && s[colon] == ':' then
      var digits := RunEnd(s, colon + 1, IsSpace);
      var end := RunEnd(s, digits, IsDigit);
      if end > digits then Some(s[digits..end]) else None
    else None
  }

  /** The capture of `/feedback["']?\s*:\s*["']([^"']+)["']/i` for a match
      starting at `i`. */
  function FeedbackMatchAt(s: string, i: nat): (r: Option<string>)
    ensures r.Some? ==> |r.value| > 0 && forall k :: 0 <= k < |r.value| ==> !IsQuote(r.value[k])
  {
    if !WordAt(s, i, "feedback") then None
    else QuotedAfterColon(s, SkipQuote(s, i + 8))
  }

  /** The capture of `\s*:\s*["']([^"']+)["']` matched from `j`. */
  function QuotedAfterColon(s: string, j: nat): (r: Option<string>)
    requires j <= |s|
    ensures r.Some? ==> |r.value| > 0 && forall k :: 0 <= k < |r.value| ==> !IsQuote(r.value[k])
  {
    var colon := RunEnd(s, j, IsSpace);
    if colon < |s| && s[colon] == ':' then
      var open := RunEnd(s, colon + 1, IsSpace);
      if open < |s| && IsQuote(s[open]) then
        var end := RunEnd(s, open + 1, NotQuote);
        if open + 1 < end < |s| then Some(s[open + 1..end]) else None
      else None
    else None
  }

  /** The leftmost position, from `i` on, where `matchAt` succeeds. */
  function LeftmostMatch(s: string, i: nat, matchAt: (string, nat) -> Option<string>): (r: Option<nat>)
    requires i <= |s|
    ensures r.Some? ==> i <= r.value <= |s| && matchAt(s, r.value).Some?
    ensures r.Some? ==> forall j :: i <= j < r.value ==> matchAt(s, j).None?
    ensures r.None? ==> forall j :: i <= j <= |s| ==> matchAt(s, j).None?
    decreases |s| - i
  {
    if matchAt(s, i).Some? then Some(i)
    else if i == |s| then None
    else LeftmostMatch(s, i + 1, matchAt)
  }

  /** A match at `p` with none before it is the one `match` reports. */
  lemma LeftmostCapture(s: string, p: nat, matchAt: (string, nat) -> Option<string>)
    requires p <= |s| && matchAt(s, p).Some?
    requires forall j :: 0 <= j < p ==> matchAt(s, j).None?
    ensures Capture(s, matchAt) == matchAt(s, p)
  {
    assert LeftmostMatch(s, 0, matchAt) == Some(p);
  }

  /** `content.match(regex)[1]`, or None when the regex does not match. */
  function Capture(s: string, matchAt: (string, nat) -> Option<string>): Option<string> {
    match LeftmostMatch(s, 0, matchAt)
    case None => None
    case Some(p) => matchAt(s, p)
  }

  /** The score the fallback path extracts: `parseInt` of the captured digits,
      a non-negative integer, and 5 when the pattern does not match. */
  function ScoreFromText(content: string): (score: int)
    ensures score >= 0
    ensures Capture(content, ScoreMatchAt).None? ==> score == DefaultScore
    ensures Capture(content, ScoreMatchAt).Some? ==> score == DigitsValue(Capture(content, ScoreMatchAt).value)
  {
    match Capture(content, ScoreMatchAt)
    case None => DefaultScore
    case Some(digits) => DigitsValue(digits)
  }

  /** The feedback the fallback path extracts: the captured text, non-empty
      and quote-free, or the fixed default when the pattern does not match. */
  function FeedbackFromText(content: string): (feedback: string)
    ensures Capture(content, FeedbackMatchAt).None? ==> feedback == UnparsedFeedback
    ensures Capture(content, FeedbackMatchAt).Some? ==>
              feedback == Capture(content, FeedbackMatchAt).value
              && |feedback| > 0 && forall k :: 0 <= k < |feedback| ==> !IsQuote(feedback[k])
  {
    match Capture(content, FeedbackMatchAt)
    case None => UnparsedFeedback
    case Some(text) => text
  }

  /** The evaluation of one answer. A reply that `parseJson` (standing for
      `JSON.parse` followed by reading `feedback` and `score`) accepts is taken
      as it is; otherwise the two patterns are tried; a failed call gives the
      fixed feedback and score 5. No failure reaches the caller. */
  function EvaluateAnswer(call: EvaluationCall, parseJson: string -> Option<Assessment>): (a: Assessment)
    ensures call.CallThrew? ==> a == Assessment(FailedCallFeedback, DefaultScore)
    ensures call.Answered? && parseJson(call.content).Some? ==> a == parseJson(call.content).value
    ensures call.Answered? && parseJson(call.content).None? ==>
              a.score >= 0 && a.feedback != "" && a.feedback == FeedbackFromText(call.content)
              && a.score == ScoreFromText(call.content)
  {
    match call
    case CallThrew => Assessment(FailedCallFeedback, DefaultScore)
    case Answered(content) =>
      match parseJson(content)
      case Some(parsed) => parsed
      case None => Assessment(FeedbackFromText(content), ScoreFromText(content))
  }

  /** A run of characters satisfying `p` ends where the first one failing it stands. */
  lemma {:induction false} RunEndAt(s: string, start: nat, stop: nat, p: char -> bool, k: nat)
    requires start <= stop <= |s| && start + k <= stop
    requires forall j :: start <= j < stop ==> p(s[j])
    requires stop == |s| || !p(s[stop])
    ensures RunEnd(s, start + k, p) == stop
    decreases stop - start - k
  {
    if start + k < stop {
      RunEndAt(s, start, stop, p, k + 1);
    }
  }

  /** The text `s` holds a match of `/score["']?\s*:\s*([0-9]+)/i` at `i`
      capturing `d`, read off position by position: `score` in any ASCII case,
      `quote` (0 or 1) quote characters, and then `DigitsTail`. */
  predicate ScoreLayout(s: string, i: nat, quote: nat, sp1: nat, sp2: nat, d: string) {
    quote <= 1 && i + 5 + quote <= |s|
    && WordAt(s, i, "score")
    && (quote == 1 ==> IsQuote(s[i + 5]))
    && DigitsTail(s, i + 5 + quote, sp1, sp2, d)
  }

  /** From `j`: `sp1` white-space characters, a colon, `sp2` white-space
      characters, and the digits `d`, which no further digit follows (the
      greedy `+`). */
  predicate DigitsTail(s: string, j: nat, sp1: nat, sp2: nat, d: string) {
    var colon := j + sp1;
    var start := colon + 1 + sp2;
    start + |d| <= |s|
    && (forall k :: j <= k < colon ==> IsSpace(s[k]))
    && s[colon] == ':'
    && (forall k :: colon + 1 <= k < start ==> IsSpace(s[k]))
    && |d| > 0 && s[start..start + |d|] == d
    && (forall k :: 0 <= k < |d| ==> IsDigit(d[k]))
    && (start + |d| == |s| || !IsDigit(s[start + |d|]))
  }

  /** `ScoreMatchAt` finds exactly the matches the pattern describes. */
  lemma ScoreMatchAtMeans(s: string, i: nat, d: string)
    ensures ScoreMatchAt(s, i) == Some(d) <==> exists q, a, b :: ScoreLayout(s, i, q, a, b, d)
  {
    if ScoreMatchAt(s, i) == Some(d) {
      var afterQuote := SkipQuote(s, i + 5);
      var colon := RunEnd(s, afterQuote, IsSpace);
      var start := RunEnd(s, colon + 1, IsSpace);
      assert ScoreLayout(s, i, afterQuote - (i + 5), colon - afterQuote, start - colon - 1, d);
    }
    if exists q, a, b :: ScoreLayout(s, i, q, a, b, d) {
      var q, a, b :| ScoreLayout(s, i, q, a, b, d);
      ScoreLayoutMatches(s, i, q, a, b, d);
    }
  }

  /** A match laid out as the pattern describes is the one `ScoreMatchAt` finds. */
  lemma ScoreLayoutMatches(s: string, i: nat, q: nat, a: nat, b: nat, d: string)
    requires ScoreLayout(s, i, q, a, b, d)
    ensures ScoreMatchAt(s, i) == Some(d)
  {
    assert SkipQuote(s, i + 5) == i + 5 + q by {
      if q == 0 && a > 0 { assert IsSpace(s[i + 5]); }
      if q == 0 && a == 0 { assert s[i + 5] == ':'; }
    }
    DigitsTailMatches(s, i + 5 + q, a, b, d);
  }

  /** The digits laid out from `j` are what `DigitsAfterColon` captures. */
  lemma DigitsTailMatches(s: string, j: nat, a: nat, b: nat, d: string)
    requires DigitsTail(s, j, a, b, d)
    ensures DigitsAfterColon(s, j) == Some(d)
  {
    var colon := j + a;
    var start := colon + 1 + b;
    assert s[colon] == ':';
    RunEndAt(s, j, colon, IsSpace, 0);
    assert s[start] == d[0];
    RunEndAt(s, colon + 1, start, IsSpace, 0);
    DigitRunAt(s, start, d);
    DigitsAfterColonIs(s, j, colon, start, d);
  }

  /** The digit capture once the colon, the end of the white space and the end
      of the digits are known. */
  lemma DigitsAfterColonIs(s: string, j: nat, colon: nat, start: nat, d: string)
    requires j <= colon < start <= |s| && start + |d| <= |s| && |d| > 0
    requires RunEnd(s, j, IsSpace) == colon && s[colon] == ':'
    requires RunEnd(s, colon + 1, IsSpace) == start && RunEnd(s, start, IsDigit) == start + |d|
    requires s[start..start + |d|] == d
    ensures DigitsAfterColon(s, j) == Some(d)
  {
  }

  /** The digits `d` standing at `start`, with no digit after them, are the
      digit run from `start`. */
  lemma DigitRunAt(s: string, start: nat, d: string)
    requires start + |d| <= |s| && s[start..start + |d|] == d
    requires forall k :: 0 <= k < |d| ==> IsDigit(d[k])
    requires start + |d| == |s| || !IsDigit(s[start + |d|])
    ensures RunEnd(s, start, IsDigit) == start + |d|
  {
    assert forall k :: start <= k < start + |d| ==> s[k] == d[k - start];
    RunEndAt(s, start, start + |d|, IsDigit, 0);
  }

  /** The score read from any reply that does not parse: when the pattern's
      leftmost match is at `p` with digits `d`, the score is their value. */
  lemma ScoreCaptured(s: string, p: nat, q: nat, a: nat, b: nat, d: string)
    requires ScoreLayout(s, p, q, a, b, d)
    requires forall j: nat, q': nat, a': nat, b': nat, e: string :: j < p ==> !ScoreLayout(s, j, q', a', b', e)
    ensures Capture(s, ScoreMatchAt) == Some(d)
    ensures ScoreFromText(s) == DigitsValue(d)
  {
    ScoreMatchAtMeans(s, p, d);
    NoScoreMatchBefore(s, p);
    LeftmostCapture(s, p, ScoreMatchAt);
  }

  /** Where the pattern lays out no match, `ScoreMatchAt` finds none. */
  lemma NoScoreMatchBefore(s: string, p: nat)
    requires forall j: nat, q': nat, a': nat, b': nat, e: string :: j < p ==> !ScoreLayout(s, j, q', a', b', e)
    ensures forall j :: 0 <= j < p ==> ScoreMatchAt(s, j).None?
  {
    forall j | 0 <= j < p
      ensures ScoreMatchAt(s, j).None?
    {
      if ScoreMatchAt(s, j).Some? {
        ScoreMatchAtMeans(s, j, ScoreMatchAt(s, j).value);
      }
    }
  }

  /** A reply in which the pattern matches nowhere scores 5. */
  lemma ScoreAbsent(s: string)
    requires forall p: nat, q: nat, a: nat, b: nat, d: string :: !ScoreLayout(s, p, q, a, b, d)
    ensures ScoreFromText(s) == DefaultScore
  {
    var m := LeftmostMatch(s, 0, ScoreMatchAt);
    if m.Some? {
      ScoreMatchAtMeans(s, m.value, ScoreMatchAt(s, m.value).value);
    }
  }

  /** The text `s` holds a match of `/feedback["']?\s*:\s*["']([^"']+)["']/i`
      at `i` capturing `t`: `feedback` in any ASCII case, `quote` (0 or 1)
      quote characters, and then `QuotedTail`. */
  predicate FeedbackLayout(s: string, i: nat, quote: nat, sp1: nat, sp2: nat, t: string) {
    quote <= 1 && i + 8 + quote <= |s|
    && WordAt(s, i, "feedback")
    && (quote == 1 ==> IsQuote(s[i + 8]))
    && QuotedTail(s, i + 8 + quote, sp1, sp2, t)
  }

  /** From `j`: `sp1` white-space characters, a colon, `sp2` white-space
      characters, an opening quote, the quote-free text `t` and a closing
      quote. */
  predicate QuotedTail(s: string, j: nat, sp1: nat, sp2: nat, t: string) {
    var colon := j + sp1;
    var open := colon + 1 + sp2;
    var close := open + 1 + |t|;
    close < |s|
    && (forall k :: j <= k < colon ==> IsSpace(s[k]))
    && s[colon] == ':'
    && (forall k :: colon + 1 <= k < open ==> IsSpace(s[k]))
    && IsQuote(s[open])
    && |t| > 0 && s[open + 1..close] == t
    && (forall k :: 0 <= k < |t| ==> !IsQuote(t[k]))
    && IsQuote(s[close])
  }

  /** `FeedbackMatchAt` finds exactly the matches the pattern describes. */
  lemma FeedbackMatchAtMeans(s: string, i: nat, t: string)
    ensures FeedbackMatchAt(s, i) == Some(t) <==> exists q, a, b :: FeedbackLayout(s, i, q, a, b, t)
  {
    if FeedbackMatchAt(s, i) == Some(t) {
      var afterQuote := SkipQuote(s, i + 8);
      var colon := RunEnd(s, afterQuote, IsSpace);
      var open := RunEnd(s, colon + 1, IsSpace);
      assert FeedbackLayout(s, i, afterQuote - (i + 8), colon - afterQuote, open - colon - 1, t);
    }
    if exists q, a, b :: FeedbackLayout(s, i, q, a, b, t) {
      var q, a, b :| FeedbackLayout(s, i, q, a, b, t);
      FeedbackLayoutMatches(s, i, q, a, b, t);
    }
  }

  /** A match laid out as the pattern describes is the one `FeedbackMatchAt` finds. */
  lemma FeedbackLayoutMatches(s: string, i: nat, q: nat, a: nat, b: nat, t: string)
    requires FeedbackLayout(s, i, q, a, b, t)
    ensures FeedbackMatchAt(s, i) == Some(t)
  {
    assert SkipQuote(s, i + 8) == i + 8 + q by {
      if q == 0 && a > 0 { assert IsSpace(s[i + 8]); }
      if q == 0 && a == 0 { assert s[i + 8] == ':'; }
    }
    QuotedTailMatches(s, i + 8 + q, a, b, t);
  }

  /** The quoted text laid out from `j` is what `QuotedAfterColon` captures. */
  lemma QuotedTailMatches(s: string, j: nat, a: nat, b: nat, t: string)
    requires QuotedTail(s, j, a, b, t)
    ensures QuotedAfterColon(s, j) == Some(t)
  {
    var colon := j + a;
    var open := colon + 1 + b;
    assert s[colon] == ':';
    RunEndAt(s, j, colon, IsSpace, 0);
    assert IsQuote(s[open]);
    RunEndAt(s, colon + 1, open, IsSpace, 0);
    QuotedRunAt(s, open + 1, t);
    QuotedAfterColonIs(s, j, colon, open, t);
  }

  /** The quoted capture once the colon, the opening quote and the end of the
      quote-free text are known. */
  lemma QuotedAfterColonIs(s: string, j: nat, colon: nat, open: nat, t: string)
    requires j <= colon < open && open + 1 + |t| < |s| && |t| > 0
    requires RunEnd(s, j, IsSpace) == colon && s[colon] == ':'
    requires RunEnd(s, colon + 1, IsSpace) == open && IsQuote(s[open])
    requires RunEnd(s, open + 1, NotQuote) == open + 1 + |t|
    requires s[open + 1..open + 1 + |t|] == t
    ensures QuotedAfterColon(s, j) == Some(t)
  {
  }

  /** The quote-free text `t` standing at `start` and closed by a quote is the
      quote-free run from `start`. */
  lemma QuotedRunAt(s: string, start: nat, t: string)
    requires start + |t| < |s| && s[start..start + |t|] == t
    requires forall k :: 0 <= k < |t| ==> !IsQuote(t[k])
    requires IsQuote(s[start + |t|])
    ensures RunEnd(s, start, NotQuote) == start + |t|
  {
    assert forall k :: start <= k < start + |t| ==> s[k] == t[k - start];
    RunEndAt(s, start, start + |t|, NotQuote, 0);
  }

  /** The feedback read from any reply that does not parse: when the pattern's
      leftmost match is at `p` with text `t`, the feedback is `t`. */
  lemma FeedbackCaptured(s: string, p: nat, q: nat, a: nat, b: nat, t: string)
    requires FeedbackLayout(s, p, q, a, b, t)
    requires forall j: nat, q': nat, a': nat, b': nat, e: string :: j < p ==> !FeedbackLayout(s, j, q', a', b', e)
    ensures Capture(s, FeedbackMatchAt) == Some(t)
    ensures FeedbackFromText(s) == t
  {
    FeedbackMatchAtMeans(s, p, t);
    NoFeedbackMatchBefore(s, p);
    LeftmostCapture(s, p, FeedbackMatchAt);
  }

  /** Where the pattern lays out no match, `FeedbackMatchAt` finds none. */
  lemma NoFeedbackMatchBefore(s: string, p: nat)
    requires forall j: nat, q': nat, a': nat, b': nat, e: string :: j < p ==> !FeedbackLayout(s, j, q', a', b', e)
    ensures forall j :: 0 <= j < p ==> FeedbackMatchAt(s, j).None?
  {
    forall j | 0 <= j < p
      ensures FeedbackMatchAt(s, j).None?
    {
      if FeedbackMatchAt(s, j).Some? {
        FeedbackMatchAtMeans(s, j, FeedbackMatchAt(s, j).value);
      }
    }
  }

  /** A reply in which the pattern matches nowhere gets the fixed feedback. */
  lemma FeedbackAbsent(s: string)
    requires forall p: nat, q: nat, a: nat, b: nat, t: string :: !FeedbackLayout(s, p, q, a, b, t)
    ensures FeedbackFromText(s) == UnparsedFeedback
  {
    var m := LeftmostMatch(s, 0, FeedbackMatchAt);
    if m.Some? {
      FeedbackMatchAtMeans(s, m.value, FeedbackMatchAt(s, m.value).value);
    }
  }

  /** A reply starting with `score: ` and a run of digits yields those digits. */
  lemma ScoreLeadCaptured(digits: string, rest: string)
    requires |digits| > 0 && forall k :: 0 <= k < |digits| ==> IsDigit(digits[k])
    requires rest == [] || !IsDigit(rest[0])
    ensures Capture("score: " + digits + rest, ScoreMatchAt) == Some(digits)
  {
    var s := "score: " + digits + rest;
    assert s[0..5] == "score";
    assert Lower(s[0..5]) == "score";
    assert s[5] == ':' && s[6] == ' ';
    assert RunEnd(s, 5, IsSpace) == 5;
    assert RunEnd(s, 6, IsSpace) == 7 by {
      assert s[7] == digits[0];
    }
    assert s[7..7 + |digits|] == digits;
    RunEndAt(s, 7, 7 + |digits|, IsDigit, 0) by {
      if rest != [] { assert s[7 + |digits|] == rest[0]; }
    }
    assert ScoreMatchAt(s, 0) == Some(digits);
  }

  /** A reply starting with `feedback: '`, a quote-free text and a closing quote
      yields that text. */
  lemma FeedbackLeadCaptured(text: string, rest: string)
    requires |text| > 0 && forall k :: 0 <= k < |text| ==> !IsQuote(text[k])
    ensures Capture("feedback: '" + text + "'" + rest, FeedbackMatchAt) == Some(text)
  {
    var s := "feedback: '" + text + "'" + rest;
    assert s[0..8] == "feedback";
    assert Lower(s[0..8]) == "feedback";
    assert s[8] == ':' && s[9] == ' ' && s[10] == '\'';
    assert RunEnd(s, 8, IsSpace) == 8;
    assert RunEnd(s, 9, IsSpace) == 10 by {
      assert RunEnd(s, 10, IsSpace) == 10;
    }
    assert s[11..11 + |text|] == text;
    RunEndAt(s, 11, 11 + |text|, NotQuote, 0) by {
      assert s[11 + |text|] == '\'';
    }
    assert FeedbackMatchAt(s, 0) == Some(text);
  }

  // ---- Submitting an answer ----

  predicate HasQuestion(d: InterviewDoc, questionId: string) {
    exists i :: 0 <= i < |d.questions| && d.questions[i].id == questionId
  }

  /** The interview an answer goes to: the first of the caller's interviews that
      is not completed and holds the question. */
  function SubmitTarget(docs: seq<InterviewDoc>, user: string, questionId: string): Option<nat> {
    FirstWhere(docs, (d: InterviewDoc) => d.userId == user && !d.completed && HasQuestion(d, questionId))
  }

  /** `questions.findIndex(q => q._id.toString() === questionId)`. */
  method FindQuestionIndex(qs: seq<Question>, questionId: string) returns (k: int)
    ensures -1 <= k < |qs|
    ensures k == -1 <==> forall j :: 0 <= j < |qs| ==> qs[j].id != questionId
    ensures k >= 0 ==> qs[k].id == questionId && forall j :: 0 <= j < k ==> qs[j].id != questionId
  {
    k := 0;
    while k < |qs|
      invariant 0 <= k <= |qs|
      invariant forall j :: 0 <= j < k ==> qs[j].id != questionId
    {
      if qs[k].id == questionId {
        return;
      }
      k := k + 1;
    }
    k := -1;
  }

  /** The interview with question `i` answered and given feedback; nothing else
      of the document changes. */
  function WithAnswer(d: InterviewDoc, i: nat, answer: string, feedback: string): InterviewDoc
    requires i < |d.questions|
  {
    d.(questions := d.questions[i := d.questions[i].(answer := answer, feedback := feedback)])
  }

  /** Submitting again to the same question overwrites the earlier answer and
      feedback: the last write wins. Submitting never completes the interview
      and leaves the other questions as they were. */
  lemma WithAnswerOverwrites(d: InterviewDoc, i: nat, a1: string, f1: string, a2: string, f2: string)
    requires i < |d.questions|
    ensures WithAnswer(WithAnswer(d, i, a1, f1), i, a2, f2) == WithAnswer(d, i, a2, f2)
    ensures var e := WithAnswer(d, i, a1, f1);
            e.completed == d.completed && |e.questions| == |d.questions|
            && e.questions[i].answer == a1 && e.questions[i].feedback == f1
            && e.questions[i].id == d.questions[i].id && e.questions[i].skipped == d.questions[i].skipped
            && forall j :: 0 <= j < |d.questions| && j != i ==> e.questions[j] == d.questions[j]
  {
  }

  /** Answering the first unanswered question moves the next question further
      on; answering the last one leaves none, so the next fetch completes the
      interview. */
  lemma {:induction false} AnsweringAdvances(d: InterviewDoc, answer: string, feedback: string)
    requires answer != ""
    requires FirstWhere(d.questions, Unanswered).Some?
    ensures var i := FirstWhere(d.questions, Unanswered).value;
            var next := FirstWhere(WithAnswer(d, i, answer, feedback).questions, Unanswered);
            next.None? || next.value > i
  {
    var i := FirstWhere(d.questions, Unanswered).value;
    var qs := WithAnswer(d, i, answer, feedback).questions;
    forall j | 0 <= j <= i ensures !Unanswered(qs[j]) {
      if j < i {
        assert qs[j] == d.questions[j];
      }
    }
  }

  /** `submitAnswer`. A missing id or answer is refused with 400 (an answer of
      only spaces is accepted); the interview must be the caller's, not
      completed, and hold the question, else 404. On success exactly that
      question's answer and feedback change. */
  method SubmitAnswer(db: Db, user: string, questionId: Option<string>, answer: Option<string>,
                      call: EvaluationCall, parseJson: string -> Option<Assessment>)
    returns (r: Response<Assessment>)
    requires db.Valid()
    modifies db.interviews
    ensures db.interviews == old(db.interviews)
    ensures !Truthy(questionId) || !Truthy(answer) ==>
              r == Err(400, "Please provide questionId and answer") && Docs(db.interviews) == old(Docs(db.interviews))
    ensures Truthy(questionId) && Truthy(answer) ==>
      match old(SubmitTarget(Docs(db.interviews), user, questionId.value))
      case None =>
        r == Err(404, "Question not found or interview is already completed")
        && Docs(db.interviews) == old(Docs(db.interviews))
      case Some(k) =>
        var d := old(Docs(db.interviews))[k];
        var i := FirstWhere(d.questions, (q: Question) => q.id == questionId.value);
        var a := EvaluateAnswer(call, parseJson);
        i.Some? && r == Ok(200, a)
        && Docs(db.interviews) == old(Docs(db.interviews))[k := WithAnswer(d, i.value, answer.value, a.feedback)]
  {
    if !Truthy(questionId) || !Truthy(answer) {
      return Err(400, "Please provide questionId and answer");
    }
    var found := SubmitTarget(Docs(db.interviews), user, questionId.value);
    if found.None? {
      return Err(404, "Question not found or interview is already completed");
    }
    var iv := db.interviews[found.value];
    var index := FindQuestionIndex(iv.questions, questionId.value);
    ghost var spec := FirstWhere(iv.questions, (q: Question) => q.id == questionId.value);
    if index == -1 {
      return Err(404, "Question not found");
    }
    assert spec == Some(index) by {
      if spec.Some? {
        assert !(spec.value < index) && !(index < spec.value);
      }
    }
    var assessment := EvaluateAnswer(call, parseJson);
    var q := iv.questions[index];
    iv.questions := iv.questions[index := q.(answer := answer.value, feedback := assessment.feedback)];
    r := Ok(200, assessment);
  }
}
