/** backend/controllers/analyticsController.js: the recommendation heuristic
    and the gathering of question/answer pairs it reads, interview history with
    pagination, the progress counts and the performance-insight windows. */
module Analytics {
  import opened Common
  import opened InterviewModel
  import opened Store

  // ---- The recommendation heuristic ----

  datatype QaPair = QaPair(question: string, answer: string)

  /* The tip texts. Each begins with the characters that stand in the source
     file, which are the UTF-8 bytes of an emoji read as Windows-1252 text. */
  const StarTip: string := "\U{F0}\U{178}\U{201C}\U{2039} Use the STAR method (Situation, Task, Action, Result) to structure your behavioral answers more effectively."
  const DetailTip: string := "\U{F0}\U{178}\U{2019}\U{AC} Provide more detailed answers. Expand on your experiences with specific examples and outcomes."
  const ConciseTip: string := "\U{F0}\U{178}\U{17D}\U{AF} Keep answers concise and focused. Aim for 2-3 minutes per response."
  const TechnicalTip: string := "\U{F0}\U{178}\U{201D}\U{A7} Include more technical details and specific technologies in your technical answers."
  const TeamTip: string := "\U{F0}\U{178}\U{A4} Emphasize collaboration and interpersonal skills in your responses."

  const GenericTips: seq<string> := [
    "\U{F0}\U{178}\U{17D}\U{AF} Practice answering common interview questions out loud.",
    "\U{F0}\U{178}\U{201C}\U{161} Research the company and role to tailor your answers.",
    "\U{E2}\U{B0} Work on timing - aim for 2-3 minute responses.",
    "\U{F0}\U{178}\U{201D}\U{201E} Record yourself practicing to identify areas for improvement.",
    "\U{F0}\U{178}\U{2019}\U{A1} Prepare specific examples that demonstrate your skills and achievements."]

  const ClosingTips: seq<string> := [
    "\U{F0}\U{178}\U{201C}\U{161} Continue practicing with mock interviews to build confidence.",
    "\U{E2}\U{B0} Focus on timing your responses to 2-3 minutes each."]

  /** The answers, lower-cased. */
  function LoweredAnswers(pairs: seq<QaPair>): (r: seq<string>)
    ensures |r| == |pairs| && forall i :: 0 <= i < |pairs| ==> r[i] == Lower(pairs[i].answer)
  {
    seq(|pairs|, i requires 0 <= i < |pairs| => Lower(pairs[i].answer))
  }

  /** `qaPairs.map(pair => pair.answer.toLowerCase()).join(' ')`. */
  function AllAnswers(pairs: seq<QaPair>): string {
    Join(LoweredAnswers(pairs), " ")
  }

  predicate HasStar(all: string) {
    Contains(all, "situation") && Contains(all, "task") && Contains(all, "action") && Contains(all, "result")
  }

  predicate HasTechnicalTerms(all: string) {
    Contains(all, "api") || Contains(all, "database") || Contains(all, "algorithm")
  }

  predicate HasSoftSkills(all: string) {
    Contains(all, "team") || Contains(all, "communicate") || Contains(all, "collaborate")
  }

  /** The summed length of the answers. */
  function TotalLength(pairs: seq<QaPair>): nat {
    if |pairs| == 0 then 0 else TotalLength(pairs[..|pairs| - 1]) + |pairs[|pairs| - 1].answer|
  }

  /** The average answer length is below 100. With no pairs the average is NaN,
      which is below nothing. */
  predicate TooShort(pairs: seq<QaPair>) { |pairs| > 0 && TotalLength(pairs) < 100 * |pairs| }

  /** The average answer length is above 500. */
  predicate TooLong(pairs: seq<QaPair>) { |pairs| > 0 && TotalLength(pairs) > 500 * |pairs| }

  /** `qaPairs.some(pair => pair.question.toLowerCase().includes(word))`. */
  predicate AsksAbout(pairs: seq<QaPair>, word: string) {
    exists i :: 0 <= i < |pairs| && Contains(Lower(pairs[i].question), word)
  }

  /** The tips the analysis triggers, in the order they are pushed. */
  function TargetedTips(pairs: seq<QaPair>): seq<string> {
    var all := AllAnswers(pairs);
    (if !HasStar(all) then [StarTip] else [])
    + (if TooShort(pairs) then [DetailTip] else if TooLong(pairs) then [ConciseTip] else [])
    + (if !HasTechnicalTerms(all) && AsksAbout(pairs, "technical") then [TechnicalTip] else [])
    + (if !HasSoftSkills(all) && AsksAbout(pairs, "team") then [TeamTip] else [])
  }

  /** The recommendation list: the five generic tips when nothing was
      triggered, otherwise the triggered tips followed by two closing tips. */
  function RecommendationList(pairs: seq<QaPair>): seq<string> {
    var targeted := TargetedTips(pairs);
    if |targeted| == 0 then GenericTips else targeted + ClosingTips
  }

  /** Tips pushed by the four checks in turn, over the joined answers `all`,
      make up the triggered tips. */
  lemma PushedTipsAreTargeted(pairs: seq<QaPair>, all: string, star: seq<string>, lengthTip: seq<string>,
                              upToTechnical: seq<string>, recs: seq<string>)
    requires all == AllAnswers(pairs)
    requires star == (if !HasStar(all) then [StarTip] else [])
    requires lengthTip == (if TooShort(pairs) then [DetailTip] else if TooLong(pairs) then [ConciseTip] else [])
    requires upToTechnical == star + lengthTip
                              + (if !HasTechnicalTerms(all) && AsksAbout(pairs, "technical") then [TechnicalTip] else [])
    requires recs == upToTechnical + (if !HasSoftSkills(all) && AsksAbout(pairs, "team") then [TeamTip] else [])
    ensures recs == TargetedTips(pairs)
  {
  }

  /** `generateRecommendations`: pushes the tips one check at a time and joins
      them with blank lines. */
  method GenerateRecommendations(pairs: seq<QaPair>) returns (text: string)
    ensures text == Join(RecommendationList(pairs), "\n\n")
  {
    var recommendations: seq<string> := [];
    var n := |pairs|;
    var total := TotalLength(pairs);
    var all := AllAnswers(pairs);
    var hasStar := HasStar(all);
    var hasTechnicalTerms := HasTechnicalTerms(all);
    var hasSoftSkills := HasSoftSkills(all);
    if !hasStar {
      recommendations := recommendations + [StarTip];
    }
    ghost var star := recommendations;
    // Without pairs the average is 0 / 0, which compares false both ways.
    var lengthTip := LengthTip(total, n);
    assert lengthTip == (if TooShort(pairs) then [DetailTip] else if TooLong(pairs) then [ConciseTip] else []);
    recommendations := recommendations + lengthTip;
    assert recommendations == star + lengthTip;
    ghost var upToLength := recommendations;
    if !hasTechnicalTerms && AsksAbout(pairs, "technical") {
      recommendations := recommendations + [TechnicalTip];
    }
    assert recommendations == upToLength + (if !hasTechnicalTerms && AsksAbout(pairs, "technical") then [TechnicalTip] else []);
    ghost var upToTechnical := recommendations;
    if !hasSoftSkills && AsksAbout(pairs, "team") {
      recommendations := recommendations + [TeamTip];
    }
    assert recommendations == upToTechnical + (if !hasSoftSkills && AsksAbout(pairs, "team") then [TeamTip] else []);
    PushedTipsAreTargeted(pairs, all, star, lengthTip, upToTechnical, recommendations);
    if |recommendations| == 0 {
      assert recommendations + GenericTips == GenericTips;
      recommendations := recommendations + GenericTips;
    } else {
      recommendations := recommendations + ClosingTips;
    }
    assert recommendations == RecommendationList(pairs);
    text := Join(recommendations, "\n\n");
  }

  /** The length check on the average answer length `total / n`: below 100
      asks for detail, above 500 for concision. */
  method LengthTip(total: nat, n: nat) returns (tips: seq<string>)
    ensures tips == (if n > 0 && total < 100 * n then [DetailTip]
                     else if n > 0 && total > 500 * n then [ConciseTip] else [])
  {
    tips := [];
    if n > 0 && (total as real) / (n as real) < 100.0 {
      AverageBelow(total, n, 100);
      tips := [DetailTip];
    } else if n > 0 && (total as real) / (n as real) > 500.0 {
      AverageBelow(total, n, 100);
      AverageAbove(total, n, 500);
      tips := [ConciseTip];
    } else if n > 0 {
      AverageBelow(total, n, 100);
      AverageAbove(total, n, 500);
    }
  }

  /** The average is below a bound exactly when the total is below bound times
      the count. */
  lemma AverageBelow(total: nat, n: nat, bound: nat)
    requires n > 0
    ensures (total as real) / (n as real) < bound as real <==> total < bound * n
  {
    var avg := (total as real) / (n as real);
    assert avg * (n as real) == total as real;
    assert (bound * n) as real == (bound as real) * (n as real);
  }

  /** The average is above a bound exactly when the total is above bound times
      the count. */
  lemma AverageAbove(total: nat, n: nat, bound: nat)
    requires n > 0
    ensures (total as real) / (n as real) > bound as real <==> total > bound * n
  {
    var avg := (total as real) / (n as real);
    assert avg * (n as real) == total as real;
    assert (bound * n) as real == (bound as real) * (n as real);
  }

  /** The list is either the five generic tips (when nothing was triggered), or
      one to four triggered tips followed by the two closing ones. */
  lemma RecommendationShape(pairs: seq<QaPair>)
    ensures var t := TargetedTips(pairs);
            var l := RecommendationList(pairs);
            |t| <= 4
            && (|t| == 0 ==> l == GenericTips && |l| == 5)
            && (|t| > 0 ==> l == t + ClosingTips && 3 <= |l| <= 6)
  {
  }

  /** The triggered tips differ from the generic and closing ones. */
  lemma TipsDistinct()
    ensures StarTip !in GenericTips && StarTip !in ClosingTips
    ensures DetailTip !in GenericTips && DetailTip !in ClosingTips
    ensures ConciseTip !in GenericTips && ConciseTip !in ClosingTips
    ensures TechnicalTip !in GenericTips && TechnicalTip !in ClosingTips
    ensures TeamTip !in GenericTips && TeamTip !in ClosingTips
    ensures StarTip != DetailTip && StarTip != ConciseTip && StarTip != TechnicalTip && StarTip != TeamTip
    ensures DetailTip != ConciseTip && DetailTip != TechnicalTip && DetailTip != TeamTip
    ensures ConciseTip != TechnicalTip && ConciseTip != TeamTip && TechnicalTip != TeamTip
  {
    assert |StarTip| != |DetailTip| && |StarTip| != |ConciseTip| && |StarTip| != |TechnicalTip| && |StarTip| != |TeamTip|;
  }

  /** The STAR tip appears exactly when the answers, taken together, miss one of
      situation, task, action and result. */
  lemma StarTipIff(pairs: seq<QaPair>)
    ensures StarTip in RecommendationList(pairs) <==> !HasStar(AllAnswers(pairs))
  {
    TipsDistinct();
  }

  /** At most one length tip: "more detail" exactly when the average length is
      below 100, "concise" exactly when it is above 500. */
  lemma LengthTipIff(pairs: seq<QaPair>)
    ensures DetailTip in RecommendationList(pairs) <==> TooShort(pairs)
    ensures ConciseTip in RecommendationList(pairs) <==> TooLong(pairs)
    ensures !(DetailTip in RecommendationList(pairs) && ConciseTip in RecommendationList(pairs))
  {
    TipsDistinct();
  }

  /** The words the heuristic looks for contain no space, so joining the answers
      with spaces finds a word exactly when one answer holds it: the answers do
      not run into each other. */
  lemma KeywordInSomeAnswer(pairs: seq<QaPair>, word: string)
    requires word in {"situation", "task", "action", "result", "api", "database", "algorithm",
                      "team", "communicate", "collaborate"}
    ensures Contains(AllAnswers(pairs), word) <==>
            exists i :: 0 <= i < |pairs| && Contains(Lower(pairs[i].answer), word)
  {
    var lowered := LoweredAnswers(pairs);
    ContainsJoinedBySpace(lowered, word);
    if exists i :: 0 <= i < |lowered| && Contains(lowered[i], word) {
      var i :| 0 <= i < |lowered| && Contains(lowered[i], word);
      assert Contains(Lower(pairs[i].answer), word);
    }
  }

  /** One answer mentions the word. */
  predicate SomeAnswerSays(pairs: seq<QaPair>, word: string) {
    exists i :: 0 <= i < |pairs| && Contains(Lower(pairs[i].answer), word)
  }

  /** The technical tip appears exactly when no answer mentions an API, a
      database or an algorithm and some question mentions "technical". */
  lemma TechnicalTipIff(pairs: seq<QaPair>)
    ensures TechnicalTip in RecommendationList(pairs) <==>
            !SomeAnswerSays(pairs, "api") && !SomeAnswerSays(pairs, "database")
            && !SomeAnswerSays(pairs, "algorithm") && AsksAbout(pairs, "technical")
  {
    TipsDistinct();
    KeywordInSomeAnswer(pairs, "api");
    KeywordInSomeAnswer(pairs, "database");
    KeywordInSomeAnswer(pairs, "algorithm");
  }

  /** The team tip appears exactly when no answer mentions a team,
      communicating or collaborating and some question mentions "team". */
  lemma TeamTipIff(pairs: seq<QaPair>)
    ensures TeamTip in RecommendationList(pairs) <==>
            !SomeAnswerSays(pairs, "team") && !SomeAnswerSays(pairs, "communicate")
            && !SomeAnswerSays(pairs, "collaborate") && AsksAbout(pairs, "team")
  {
    TipsDistinct();
    KeywordInSomeAnswer(pairs, "team");
    KeywordInSomeAnswer(pairs, "communicate");
    KeywordInSomeAnswer(pairs, "collaborate");
  }

  /** The STAR words may come from different answers. */
  lemma StarAcrossAnswers(pairs: seq<QaPair>)
    ensures HasStar(AllAnswers(pairs)) <==>
            SomeAnswerSays(pairs, "situation") && SomeAnswerSays(pairs, "task")
            && SomeAnswerSays(pairs, "action") && SomeAnswerSays(pairs, "result")
  {
    KeywordInSomeAnswer(pairs, "situation");
    KeywordInSomeAnswer(pairs, "task");
    KeywordInSomeAnswer(pairs, "action");
    KeywordInSomeAnswer(pairs, "result");
  }

  // ---- Gathering question/answer pairs ----

  /** `q.answer && q.answer.trim().length > 0`. */
  predicate Answered(q: Question) { !Blank(q.answer) }

  /** The answered questions of one interview as pairs, in question order. */
  function PairsOf(qs: seq<Question>): seq<QaPair> {
    if |qs| == 0 then []
    else
      var q := qs[|qs| - 1];
      PairsOf(qs[..|qs| - 1]) + (if Answered(q) then [QaPair(q.questionText, q.answer)] else [])
  }

  /** The pairs of all the interviews, interview after interview. */
  function AllPairs(ivs: seq<InterviewDoc>): seq<QaPair> {
    if |ivs| == 0 then [] else AllPairs(ivs[..|ivs| - 1]) + PairsOf(ivs[|ivs| - 1].questions)
  }

  predicate IsPrefix<T(==)>(a: seq<T>, b: seq<T>) { |a| <= |b| && b[..|a|] == a }

  /** Taking as many elements as a prefix holds gives that prefix. */
  lemma TakePrefix<T>(a: seq<T>, b: seq<T>, n: nat)
    requires IsPrefix(a, b) && |a| == n
    ensures Take(b, n) == a
  {
  }

  lemma {:induction false} PairsOfPrefix(qs: seq<Question>, j: nat)
    requires j <= |qs|
    ensures IsPrefix(PairsOf(qs[..j]), PairsOf(qs))
    decreases |qs| - j
  {
    if j < |qs| {
      PairsOfPrefix(qs, j + 1);
      assert qs[..j + 1][..j] == qs[..j];
      var a := PairsOf(qs[..j]);
      var b := PairsOf(qs[..j + 1]);
      assert b[..|a|] == a;
      assert PairsOf(qs)[..|b|] == b;
      assert PairsOf(qs)[..|a|] == b[..|a|];
    } else {
      assert qs[..j] == qs;
    }
  }

  lemma {:induction false} AllPairsPrefix(ivs: seq<InterviewDoc>, i: nat)
    requires i <= |ivs|
    ensures IsPrefix(AllPairs(ivs[..i]), AllPairs(ivs))
    decreases |ivs| - i
  {
    if i < |ivs| {
      AllPairsPrefix(ivs, i + 1);
      assert ivs[..i + 1][..i] == ivs[..i];
      var a := AllPairs(ivs[..i]);
      var b := AllPairs(ivs[..i + 1]);
      assert b[..|a|] == a;
      assert AllPairs(ivs)[..|b|] == b;
      assert AllPairs(ivs)[..|a|] == b[..|a|];
    } else {
      assert ivs[..i] == ivs;
    }
  }

  /** Every gathered pair has an answer that is not blank. */
  lemma {:induction false} PairsAreAnswered(ivs: seq<InterviewDoc>)
    ensures forall k :: 0 <= k < |AllPairs(ivs)| ==> !Blank(AllPairs(ivs)[k].answer)
  {
    if |ivs| > 0 {
      PairsAreAnswered(ivs[..|ivs| - 1]);
      PairsOfAnswered(ivs[|ivs| - 1].questions);
    }
  }

  lemma {:induction false} PairsOfAnswered(qs: seq<Question>)
    ensures forall k :: 0 <= k < |PairsOf(qs)| ==> !Blank(PairsOf(qs)[k].answer)
  {
    if |qs| > 0 {
      PairsOfAnswered(qs[..|qs| - 1]);
    }
  }

  /** `q.answer && q.answer.trim().length > 0` is `Answered`. */
  lemma AnsweredIffTrimmed(q: Question)
    ensures (q.answer != "" && |Trim(q.answer)| > 0) <==> Answered(q)
  {
    TrimEmptyIffBlank(q.answer);
  }

  /** `q.answer && q.answer.trim().length > 0`. */
  method HasAnswer(q: Question) returns (answered: bool)
    ensures answered <==> Answered(q)
  {
    AnsweredIffTrimmed(q);
    answered := q.answer != "" && |Trim(q.answer)| > 0;
  }

  /** The inner loop of `getRecommendations`: one interview's answered
      questions are appended, stopping once ten pairs are held. */
  method GatherFrom(held: seq<QaPair>, qs: seq<Question>) returns (pairs: seq<QaPair>)
    requires |held| < 10
    ensures pairs == held + Take(PairsOf(qs), 10 - |held|)
  {
    pairs := held;
    var j := 0;
    while j < |qs|
      invariant 0 <= j <= |qs|
      invariant pairs == held + PairsOf(qs[..j]) && |pairs| < 10
    {
      var q := qs[j];
      assert qs[..j + 1][..j] == qs[..j];
      var answered := HasAnswer(q);
      if answered {
        pairs := pairs + [QaPair(q.questionText, q.answer)];
      }
      assert pairs == held + PairsOf(qs[..j + 1]);
      if |pairs| >= 10 {
        PairsOfPrefix(qs, j + 1);
        TakePrefix(PairsOf(qs[..j + 1]), PairsOf(qs), 10 - |held|);
        break;
      }
      j := j + 1;
    }
    if |pairs| < 10 {
      assert qs[..j] == qs;
    }
  }

  /** The outer loop of `getRecommendations`: pairs are collected interview by
      interview, and collecting stops at ten. */
  method GatherPairs(ivs: seq<InterviewDoc>) returns (pairs: seq<QaPair>)
    ensures pairs == Take(AllPairs(ivs), 10)
  {
    pairs := [];
    var i := 0;
    while i < |ivs|
      invariant 0 <= i <= |ivs|
      invariant pairs == AllPairs(ivs[..i]) && |pairs| < 10
    {
      assert ivs[..i + 1][..i] == ivs[..i];
      ghost var before := pairs;
      pairs := GatherFrom(pairs, ivs[i].questions);
      if |pairs| >= 10 {
        var whole := AllPairs(ivs[..i + 1]);
        assert whole == before + PairsOf(ivs[i].questions);
        assert pairs == whole[..10];
        AllPairsPrefix(ivs, i + 1);
        break;
      }
      i := i + 1;
    }
    if |pairs| < 10 {
      assert ivs[..i] == ivs;
    }
  }

  /** The user's completed interviews in store order. */
  function CompletedOf(docs: seq<InterviewDoc>, user: string): seq<InterviewDoc> {
    Filter(docs, (d: InterviewDoc) => d.userId == user && d.completed)
  }

  /** The newest five completed interviews of the user, newest first: the last
      `min(5, n)` of the user's `n` completed ones, in reverse store order. */
  function RecentCompleted(docs: seq<InterviewDoc>, user: string): (r: seq<InterviewDoc>)
    ensures var c := CompletedOf(docs, user);
            |r| == Min(5, |c|) && forall i :: 0 <= i < |r| ==> r[i] == c[|c| - 1 - i]
    ensures forall i :: 0 <= i < |r| ==> r[i].userId == user && r[i].completed
  {
    Take(Reverse(CompletedOf(docs, user)), 5)
  }

  /** Storing one more document adds it to the user's completed ones exactly
      when it is one of them. */
  lemma CompletedOfSnoc(docs: seq<InterviewDoc>, d: InterviewDoc, user: string)
    ensures CompletedOf(docs + [d], user) == CompletedOf(docs, user) + (if d.userId == user && d.completed then [d] else [])
  {
    var p := (x: InterviewDoc) => x.userId == user && x.completed;
    FilterAppend(docs, [d], p);
    assert Filter([d], p) == (if p(d) then [d] else []) + Filter([d][1..], p);
  }

  /** A newly stored interview that the user has completed becomes the first of
      the recent ones, ahead of the previous ones; any other new document
      leaves the recent ones as they were. */
  lemma NewestCompletedFirst(docs: seq<InterviewDoc>, d: InterviewDoc, user: string)
    ensures d.userId == user && d.completed ==>
              RecentCompleted(docs + [d], user) == Take([d] + RecentCompleted(docs, user), 5)
    ensures !(d.userId == user && d.completed) ==>
              RecentCompleted(docs + [d], user) == RecentCompleted(docs, user)
  {
    CompletedOfSnoc(docs, d, user);
    var c := CompletedOf(docs, user);
    if d.userId == user && d.completed {
      var rc := Reverse(c);
      assert Reverse(c + [d]) == [d] + rc by {
        assert (c + [d])[..|c + [d]| - 1] == c;
      }
      assert Take([d] + rc, 5) == Take([d] + Take(rc, 5), 5);
    } else {
      assert c + [] == c;
    }
  }

  const ColdStartAdvice: string := "Focus on structuring answers (STAR), clarifying trade-offs, and practicing mock sessions."

  /** The advice for the given interviews: the tips for their first ten
      answered pairs or, with none, the fixed cold-start advice. */
  function AdviceFor(ivs: seq<InterviewDoc>): string {
    var pairs := Take(AllPairs(ivs), 10);
    if |pairs| == 0 then ColdStartAdvice else Join(RecommendationList(pairs), "\n\n")
  }

  /** `getRecommendations`: at most 10 answered pairs from the newest five
      completed interviews; with none, the fixed cold-start advice. */
  method GetRecommendations(db: Db, user: string) returns (r: Response<string>)
    ensures r == Ok(200, AdviceFor(RecentCompleted(Docs(db.interviews), user)))
  {
    var interviews := RecentCompleted(Docs(db.interviews), user);
    var qaPairs := GatherPairs(interviews);
    var recommendations;
    if |qaPairs| > 0 {
      recommendations := GenerateRecommendations(qaPairs);
    } else {
      recommendations := ColdStartAdvice;
    }
    assert recommendations == AdviceFor(interviews);
    r := Ok(200, recommendations);
  }

  /** The pairs `getRecommendations` analyses are at most ten, each with an
      answer that is not blank. */
  lemma GatheredPairs(ivs: seq<InterviewDoc>)
    ensures var pairs := Take(AllPairs(ivs), 10);
            |pairs| <= 10 && forall k :: 0 <= k < |pairs| ==> !Blank(pairs[k].answer)
  {
    PairsAreAnswered(ivs);
  }

  // ---- Interview history ----

  /** `parseInt(param) || fallback`: a missing, unparsable or zero value takes
      the fallback; any other integer, negative ones included, is kept. */
  function PageParam(parsed: Option<int>, fallback: int): (v: int)
    ensures (parsed.None? || parsed.value == 0) ==> v == fallback
    ensures parsed.Some? && parsed.value != 0 ==> v == parsed.value
  {
    if parsed.Some? && parsed.value != 0 then parsed.value else fallback
  }

  datatype Pagination = Pagination(currentPage: int, totalPages: int, totalInterviews: nat, hasNext: bool, hasPrev: bool)

  function PaginationOf(page: int, limit: int, total: nat): (p: Pagination)
    requires limit != 0
    ensures p.currentPage == page && p.totalInterviews == total
    ensures p.hasNext <==> page < p.totalPages
    ensures p.hasPrev <==> page > 1
    ensures limit > 0 ==> (p.totalPages - 1) * limit < total <= p.totalPages * limit
  {
    var pages := CeilDiv(total, limit);
    Pagination(page, pages, total, page < pages, page > 1)
  }

  /** For a positive page and limit, there is a next page exactly when documents
      remain after this one, and there is a previous page exactly when this one
      skips some. */
  lemma HasNextIffMore(page: int, limit: int, total: nat)
    requires page >= 1 && limit >= 1
    ensures PaginationOf(page, limit, total).hasNext <==> page * limit < total
    ensures PaginationOf(page, limit, total).hasPrev <==> (page - 1) * limit > 0
  {
    var pages := PaginationOf(page, limit, total).totalPages;
    MulMonotone(page, pages - 1, limit);
    MulMonotone(pages, page, limit);
    MulMonotone(0, page - 1, limit);
  }

  /** Every document falls on a page no later than the last one. */
  lemma EveryDocumentOnAPage(limit: int, total: nat, k: nat)
    requires limit >= 1 && k < total
    ensures var page := k / limit + 1;
            (page - 1) * limit <= k < page * limit && page <= PaginationOf(page, limit, total).totalPages
  {
    var page := k / limit + 1;
    var pages := PaginationOf(page, limit, total).totalPages;
    assert (page - 1) * limit <= k;
    MulMonotone(page - 1, pages, limit);
  }

  /** Multiplying by a positive number keeps order. */
  lemma MulMonotone(a: int, b: int, c: int)
    requires c > 0
    ensures a <= b <==> a * c <= b * c
    ensures a < b <==> a * c < b * c
  {
    assert b * c - a * c == (b - a) * c;
  }

  /** A question as history lists it: without answer and feedback. */
  datatype QuestionSummary = QuestionSummary(id: string, questionText: string, aiGenerated: bool, skipped: bool)

  datatype InterviewSummary = InterviewSummary(
    id: string, userId: string, category: Category, difficulty: Difficulty,
    questions: seq<QuestionSummary>, startedAt: Option<int>, completedAt: Option<int>,
    completed: bool, duration: int)

  /** `.select('-questions.answer -questions.feedback')`. */
  function Summary(d: InterviewDoc): (s: InterviewSummary)
    ensures s.id == d.id && s.userId == d.userId && s.completed == d.completed && s.duration == d.duration
    ensures |s.questions| == |d.questions|
    ensures forall i :: 0 <= i < |d.questions| ==>
              s.questions[i].id == d.questions[i].id && s.questions[i].questionText == d.questions[i].questionText
  {
    InterviewSummary(d.id, d.userId, d.category, d.difficulty,
                     seq(|d.questions|, i requires 0 <= i < |d.questions| =>
                       QuestionSummary(d.questions[i].id, d.questions[i].questionText,
                                       d.questions[i].aiGenerated, d.questions[i].skipped)),
                     d.startedAt, d.completedAt, d.completed, d.duration)
  }

  datatype HistoryPage = HistoryPage(interviews: seq<InterviewSummary>, pagination: Pagination)

  /** `.skip(skip).limit(count)` on an already ordered result. */
  function Window(docs: seq<InterviewDoc>, skip: nat, count: nat): (r: seq<InterviewDoc>)
    ensures |r| == Min(Max(|docs| - skip, 0), count)
    ensures forall i :: 0 <= i < |r| ==> r[i] == docs[skip + i]
  {
    Take(if skip <= |docs| then docs[skip..] else [], count)
  }

  function Summaries(docs: seq<InterviewDoc>): (r: seq<InterviewSummary>)
    ensures |r| == |docs| && forall i :: 0 <= i < |docs| ==> r[i] == Summary(docs[i])
  {
    seq(|docs|, i requires 0 <= i < |docs| => Summary(docs[i]))
  }

  /** The caller's interviews, newest first. */
  function NewestFirst(docs: seq<InterviewDoc>, user: string): (r: seq<InterviewDoc>)
    ensures var mine := Filter(docs, (d: InterviewDoc) => d.userId == user);
            |r| == |mine| && forall i :: 0 <= i < |r| ==> r[i] == mine[|mine| - 1 - i]
  {
    Reverse(Filter(docs, (d: InterviewDoc) => d.userId == user))
  }

  /** `(page - 1) * limit`. */
  function Skip(page: int, limit: int): int { (page - 1) * limit }

  /** `getInterviewHistory`. The caller's interviews newest first, `skip`
      documents dropped and `limit` kept. The database refuses a negative skip
      (its message is `dbError`); a negative limit returns that many documents
      in absolute value. */
  function GetInterviewHistory(docs: seq<InterviewDoc>, user: string, page: Option<int>, limit: Option<int>,
                               dbError: string): (r: Response<HistoryPage>)
    ensures var p := PageParam(page, 1);
            var l := PageParam(limit, 10);
            (r.Err? <==> Skip(p, l) < 0)
            && (r.Err? ==> r == Err(500, dbError))
            && (r.Ok? ==>
                  var mine := NewestFirst(docs, user);
                  r.status == 200
                  && r.body.pagination == PaginationOf(p, l, |mine|)
                  && |r.body.interviews| == Min(Max(|mine| - Skip(p, l), 0), if l > 0 then l else -l)
                  && forall i :: 0 <= i < |r.body.interviews| ==>
                       r.body.interviews[i] == Summary(mine[Skip(p, l) + i]))
  {
    var p := PageParam(page, 1);
    var l := PageParam(limit, 10);
    var skip := Skip(p, l);
    if skip < 0 then Err(500, dbError)
    else
      var mine := NewestFirst(docs, user);
      Ok(200, HistoryPage(Summaries(Window(mine, skip, if l > 0 then l else -l)), PaginationOf(p, l, |mine|)))
  }

  // ---- Progress ----

  /** `Array.prototype.reduce` summing durations. */
  function SumDurations(docs: seq<InterviewDoc>): int {
    if |docs| == 0 then 0 else SumDurations(docs[..|docs| - 1]) + docs[|docs| - 1].duration
  }

  /** The summed time of two runs of interviews is the sum of their times, so
      the sum does not depend on how the documents are split. */
  lemma {:induction false} SumDurationsAppend(a: seq<InterviewDoc>, b: seq<InterviewDoc>)
    ensures SumDurations(a + b) == SumDurations(a) + SumDurations(b)
    decreases |b|
  {
    if |b| > 0 {
      SumDurationsAppend(a, b[..|b| - 1]);
      assert (a + b)[..|a + b| - 1] == a + b[..|b| - 1];
    } else {
      assert a + b == a;
    }
  }

  lemma {:induction false} SumDurationsNonNegative(docs: seq<InterviewDoc>)
    requires forall i :: 0 <= i < |docs| ==> docs[i].duration >= 0
    ensures SumDurations(docs) >= 0
  {
    if |docs| > 0 {
      SumDurationsNonNegative(docs[..|docs| - 1]);
    }
  }

  /** A stricter filter keeps no more elements. */
  lemma {:induction false} FilterCountMonotone<T>(s: seq<T>, p: T -> bool, q: T -> bool)
    requires forall x :: p(x) ==> q(x)
    ensures |Filter(s, p)| <= |Filter(s, q)|
  {
    if |s| > 0 {
      FilterCountMonotone(s[1..], p, q);
    }
  }

  /** `completedInterviews / totalInterviews * 100`, or 0 without interviews. */
  function CompletionRate(completed: nat, total: nat): (rate: real)
    requires completed <= total
    ensures total == 0 ==> rate == 0.0
    ensures total > 0 ==> rate * (total as real) == (completed as real) * 100.0
    ensures 0.0 <= rate <= 100.0
  {
    if total > 0 then (completed as real) / (total as real) * 100.0 else 0.0
  }

  datatype MonthStats = MonthStats(interviews: nat, completed: nat, totalDuration: int)
  datatype TotalStats = TotalStats(totalInterviews: nat, completedInterviews: nat, completionRate: real)
  datatype Progress = Progress(currentMonth: MonthStats, totalStats: TotalStats)

  /** The user's interviews. */
  function MineOf(docs: seq<InterviewDoc>, user: string): seq<InterviewDoc> {
    Filter(docs, (d: InterviewDoc) => d.userId == user)
  }

  /** The user's interviews created within the month. */
  function MonthOf(docs: seq<InterviewDoc>, user: string, inMonth: InterviewDoc -> bool): seq<InterviewDoc> {
    Filter(docs, (d: InterviewDoc) => d.userId == user && inMonth(d))
  }

  /** `filter(i => i.completed)`. */
  function CompletedIn(docs: seq<InterviewDoc>): seq<InterviewDoc> {
    Filter(docs, (d: InterviewDoc) => d.completed)
  }

  /** The all-time figures: both counts and the rate they give. */
  function TotalStatsOf(docs: seq<InterviewDoc>, user: string): (t: TotalStats)
    ensures t.totalInterviews == |MineOf(docs, user)| && t.completedInterviews == |CompletedOf(docs, user)|
    ensures t.completedInterviews <= t.totalInterviews
    ensures t.completionRate == CompletionRate(t.completedInterviews, t.totalInterviews)
  {
    FilterCountMonotone(docs, (d: InterviewDoc) => d.userId == user && d.completed, (d: InterviewDoc) => d.userId == user);
    var total := |MineOf(docs, user)|;
    var completed := |CompletedOf(docs, user)|;
    TotalStats(total, completed, CompletionRate(completed, total))
  }

  /** `getUserProgress`, without the category and six-month aggregations.
      `inMonth` stands for the creation-date range of the requested month. The
      totals count the user's interviews and completed ones, the rate is the
      completed share in percent, and the month's figures count, and sum the
      time of, the user's interviews of that month. */
  function GetUserProgress(docs: seq<InterviewDoc>, user: string, inMonth: InterviewDoc -> bool): (p: Progress)
    ensures p.totalStats.totalInterviews == |MineOf(docs, user)|
    ensures p.totalStats.completedInterviews == |CompletedOf(docs, user)|
    ensures p.totalStats.completedInterviews <= p.totalStats.totalInterviews
    ensures 0.0 <= p.totalStats.completionRate <= 100.0
    ensures p.totalStats.totalInterviews == 0 ==> p.totalStats.completionRate == 0.0
    ensures p.totalStats.completionRate == CompletionRate(p.totalStats.completedInterviews, p.totalStats.totalInterviews)
    ensures p.currentMonth.interviews == |MonthOf(docs, user, inMonth)|
    ensures p.currentMonth.completed == |CompletedIn(MonthOf(docs, user, inMonth))|
    ensures p.currentMonth.totalDuration == SumDurations(MonthOf(docs, user, inMonth))
  {
    var month := MonthOf(docs, user, inMonth);
    var t := TotalStatsOf(docs, user);
    Progress(MonthStats(|month|, |CompletedIn(month)|, SumDurations(month)), t)
  }

  /** The month's counts never exceed the overall ones: completed within the
      month is at most the month's interviews and at most all completed ones. */
  lemma ProgressCounts(docs: seq<InterviewDoc>, user: string, inMonth: InterviewDoc -> bool)
    ensures var p := GetUserProgress(docs, user, inMonth);
            p.currentMonth.completed <= p.currentMonth.interviews <= p.totalStats.totalInterviews
            && p.currentMonth.completed <= p.totalStats.completedInterviews
  {
    var mine := (d: InterviewDoc) => d.userId == user;
    var done := (d: InterviewDoc) => d.userId == user && d.completed;
    var monthly := (d: InterviewDoc) => d.userId == user && inMonth(d);
    var completed := (d: InterviewDoc) => d.completed;
    FilterCountMonotone(docs, monthly, mine);
    FilterTwiceCount(docs, monthly, completed, done);
  }

  /** Filtering by one test and then another keeps no more than filtering by a
      test both imply. */
  lemma {:induction false} FilterTwiceCount<T>(s: seq<T>, p: T -> bool, q: T -> bool, r: T -> bool)
    requires forall x :: p(x) && q(x) ==> r(x)
    ensures |Filter(Filter(s, p), q)| <= |Filter(s, r)|
  {
    if |s| > 0 {
      FilterTwiceCount(s[1..], p, q, r);
      var fp := Filter(s, p);
      if p(s[0]) {
        assert fp[0] == s[0] && fp[1..] == Filter(s[1..], p);
      } else {
        assert fp == Filter(s[1..], p);
      }
    }
  }

  /** The month's total time is never negative, since stored durations are not. */
  lemma MonthDurationNonNegative(docs: seq<InterviewDoc>, user: string, inMonth: InterviewDoc -> bool)
    requires forall i :: 0 <= i < |docs| ==> docs[i].duration >= 0
    ensures GetUserProgress(docs, user, inMonth).currentMonth.totalDuration >= 0
  {
    var month := Filter(docs, (d: InterviewDoc) => d.userId == user && inMonth(d));
    forall i | 0 <= i < |month| ensures month[i].duration >= 0 {
      assert month[i] in docs;
    }
    SumDurationsNonNegative(month);
  }

  // ---- Performance insights ----

  /** A practice session of backend/models/interviewSession.js: its scores and
      its duration in seconds. */
  datatype Session = Session(scores: seq<real>, duration: real)

  function SumReal(xs: seq<real>): real {
    if |xs| == 0 then 0.0 else SumReal(xs[..|xs| - 1]) + xs[|xs| - 1]
  }

  /** A sum of values within bounds lies within count times the bounds. */
  lemma {:induction false} SumBounds(xs: seq<real>, lo: real, hi: real)
    requires forall i :: 0 <= i < |xs| ==> lo <= xs[i] <= hi
    ensures lo * (|xs| as real) <= SumReal(xs) <= hi * (|xs| as real)
  {
    if |xs| > 0 {
      SumBounds(xs[..|xs| - 1], lo, hi);
    }
  }

  /** The mean of values within bounds lies within them. */
  lemma MeanBounds(xs: seq<real>, lo: real, hi: real)
    requires |xs| > 0 && forall i :: 0 <= i < |xs| ==> lo <= xs[i] <= hi
    ensures lo <= SumReal(xs) / (|xs| as real) <= hi
  {
    SumBounds(xs, lo, hi);
    DivBounds(SumReal(xs), |xs| as real, lo, hi);
  }

  /** A total between n times two bounds, divided by n, lies between them. */
  lemma DivBounds(total: real, n: real, lo: real, hi: real)
    requires n > 0.0 && lo * n <= total <= hi * n
    ensures lo <= total / n <= hi
  {
    var m := total / n;
    assert m * n == total;
    RealMulMonotone(lo, m, n);
    RealMulMonotone(m, hi, n);
  }

  /** Multiplying by a positive real keeps order. */
  lemma RealMulMonotone(a: real, b: real, c: real)
    requires c > 0.0
    ensures a <= b <==> a * c <= b * c
  {
    assert b * c - a * c == (b - a) * c;
  }

  /** A session's mean score, or 0 without scores. */
  function SessionScore(s: Session): (m: real)
    ensures |s.scores| == 0 ==> m == 0.0
    ensures |s.scores| > 0 ==> m * (|s.scores| as real) == SumReal(s.scores)
  {
    if |s.scores| > 0 then SumReal(s.scores) / (|s.scores| as real) else 0.0
  }

  function SessionScores(sessions: seq<Session>): (r: seq<real>)
    ensures |r| == |sessions| && forall i :: 0 <= i < |sessions| ==> r[i] == SessionScore(sessions[i])
  {
    seq(|sessions|, i requires 0 <= i < |sessions| => SessionScore(sessions[i]))
  }

  function Durations(sessions: seq<Session>): (r: seq<real>)
    ensures |r| == |sessions| && forall i :: 0 <= i < |sessions| ==> r[i] == sessions[i].duration
  {
    seq(|sessions|, i requires 0 <= i < |sessions| => sessions[i].duration)
  }

  /** The mean of a non-empty run of values, and 0 for none. */
  function MeanOf(xs: seq<real>): (m: real)
    ensures |xs| == 0 ==> m == 0.0
    ensures |xs| > 0 ==> m * (|xs| as real) == SumReal(xs)
  {
    if |xs| > 0 then SumReal(xs) / (|xs| as real) else 0.0
  }

  /** The session means at newest-first positions `lo` to `hi - 1` added up;
      position 0 is the newest session, the last in store order. */
  function NewestScoreSum(sessions: seq<Session>, lo: nat, hi: nat): real
    requires lo <= hi <= |sessions|
    decreases hi
  {
    if lo == hi then 0.0 else NewestScoreSum(sessions, lo, hi - 1) + SessionScore(sessions[|sessions| - hi])
  }

  /** The durations at newest-first positions `lo` to `hi - 1` added up. */
  function NewestDurationSum(sessions: seq<Session>, lo: nat, hi: nat): real
    requires lo <= hi <= |sessions|
    decreases hi
  {
    if lo == hi then 0.0 else NewestDurationSum(sessions, lo, hi - 1) + sessions[|sessions| - hi].duration
  }

  /** A run of score means read newest first from position `lo` to `hi - 1` sums to `NewestScoreSum`. */
  lemma {:induction false} ScoreWindowSum(scores: seq<real>, sessions: seq<Session>, lo: nat, hi: nat)
    requires hi == lo + |scores| <= |sessions|
    requires forall i :: 0 <= i < |scores| ==> scores[i] == SessionScore(sessions[|sessions| - 1 - lo - i])
    ensures SumReal(scores) == NewestScoreSum(sessions, lo, hi)
    decreases |scores|
  {
    if 0 < |scores| {
      ScoreWindowSum(scores[..|scores| - 1], sessions, lo, hi - 1);
    }
  }

  /** A run of durations read newest first sums to `NewestDurationSum`. */
  lemma {:induction false} DurationWindowSum(durations: seq<real>, sessions: seq<Session>)
    requires |durations| <= |sessions|
    requires forall i :: 0 <= i < |durations| ==> durations[i] == sessions[|sessions| - 1 - i].duration
    ensures SumReal(durations) == NewestDurationSum(sessions, 0, |durations|)
    decreases |durations|
  {
    if 0 < |durations| {
      DurationWindowSum(durations[..|durations| - 1], sessions);
    }
  }

  /** The newest ten sessions, newest first, as `getPerformanceInsights` reads them. */
  function RecentSessions(sessions: seq<Session>): (r: seq<Session>)
    ensures |r| == Min(10, |sessions|) && forall i :: 0 <= i < |r| ==> r[i] == sessions[|sessions| - 1 - i]
  {
    Take(Reverse(sessions), 10)
  }

  /** `scores.slice(0, 5)`: the means of the newest five sessions, newest first. */
  function RecentScores(sessions: seq<Session>): (r: seq<real>)
    ensures |r| == Min(5, |sessions|)
    ensures forall i :: 0 <= i < |r| ==> r[i] == SessionScore(sessions[|sessions| - 1 - i])
  {
    var recent := RecentSessions(sessions);
    var scores := SessionScores(recent);
    Take(scores, 5)
  }

  /** `scores.slice(5, 10)`: the means of the five sessions before those, newest first. */
  function PreviousScores(sessions: seq<Session>): (r: seq<real>)
    ensures |r| == if |sessions| > 5 then Min(5, |sessions| - 5) else 0
    ensures forall i :: 0 <= i < |r| ==> r[i] == SessionScore(sessions[|sessions| - 6 - i])
  {
    var recent := RecentSessions(sessions);
    var scores := SessionScores(recent);
    if |scores| > 5 then scores[5..] else []
  }

  datatype Insights = Insights(recentAverage: real, previousAverage: real, improvement: real,
                               totalSessions: nat, averageDuration: real)

  /** `getPerformanceInsights` over the user's sessions in store order: the ten
      newest; the mean score of the newest five and of the five before them;
      their difference; and the mean duration of the ten, in minutes.
      `Math.min(5, n)` is the length of each window, so each average is its mean. */
  function InsightsOf(sessions: seq<Session>): (ins: Insights)
    ensures ins.totalSessions == Min(|sessions|, 10) && ins.totalSessions <= 10
    ensures |sessions| == 0 ==> ins == Insights(0.0, 0.0, 0.0, 0, 0.0)
    ensures ins.recentAverage == MeanOf(RecentScores(sessions))
    ensures ins.previousAverage == MeanOf(PreviousScores(sessions))
    ensures ins.averageDuration == MeanOf(Durations(RecentSessions(sessions))) / 60.0
    ensures |sessions| <= 5 ==> ins.previousAverage == 0.0 && ins.improvement == 0.0
    ensures |sessions| > 5 ==> ins.improvement == ins.recentAverage - ins.previousAverage
  {
    var recent := RecentSessions(sessions);
    var recentAverage := MeanOf(RecentScores(sessions));
    var previousAverage := MeanOf(PreviousScores(sessions));
    Insights(recentAverage, previousAverage,
             if |sessions| > 5 then recentAverage - previousAverage else 0.0,
             |recent|,
             MeanOf(Durations(recent)) / 60.0)
  }

  /** The recent average is the mean score over the newest `min(5, n)` sessions. */
  lemma {:induction false} RecentWindow(sessions: seq<Session>)
    requires |sessions| > 0
    ensures InsightsOf(sessions).recentAverage
            == NewestScoreSum(sessions, 0, Min(5, |sessions|)) / (Min(5, |sessions|) as real)
  {
    var window := RecentScores(sessions);
    ScoreWindowSum(window, sessions, 0, Min(5, |sessions|));
    assert InsightsOf(sessions).recentAverage == SumReal(window) / (|window| as real);
  }

  /** With more than five sessions, the previous average is the mean score
      over the up to five sessions before the newest five. */
  lemma {:induction false} PreviousWindow(sessions: seq<Session>)
    requires |sessions| > 5
    ensures InsightsOf(sessions).previousAverage
            == NewestScoreSum(sessions, 5, Min(10, |sessions|)) / (Min(5, |sessions| - 5) as real)
  {
    var window := PreviousScores(sessions);
    ScoreWindowSum(window, sessions, 5, Min(10, |sessions|));
    assert InsightsOf(sessions).previousAverage == SumReal(window) / (|window| as real);
  }

  /** The average duration is the mean duration of the newest `min(10, n)`
      sessions, in minutes. */
  lemma {:induction false} DurationWindow(sessions: seq<Session>)
    requires |sessions| > 0
    ensures InsightsOf(sessions).averageDuration
            == NewestDurationSum(sessions, 0, Min(10, |sessions|)) / (Min(10, |sessions|) as real) / 60.0
  {
    var durations := Durations(RecentSessions(sessions));
    DurationWindowSum(durations, sessions);
    assert InsightsOf(sessions).averageDuration == SumReal(durations) / (|durations| as real) / 60.0;
  }

  /** With every score between 0 and `hi`, both window averages lie between 0
      and `hi` (a session without scores counts as 0). */
  lemma InsightsWithinScale(sessions: seq<Session>, hi: real)
    requires hi >= 0.0
    requires forall i, j :: 0 <= i < |sessions| && 0 <= j < |sessions[i].scores| ==> 0.0 <= sessions[i].scores[j] <= hi
    ensures var ins := InsightsOf(sessions);
            0.0 <= ins.recentAverage <= hi && 0.0 <= ins.previousAverage <= hi
  {
    var recent := RecentSessions(sessions);
    var scores := SessionScores(recent);
    forall k | 0 <= k < |scores| ensures 0.0 <= scores[k] <= hi {
      var s := recent[k];
      assert s in sessions;
      if |s.scores| > 0 {
        var i :| 0 <= i < |sessions| && sessions[i] == s;
        MeanBounds(s.scores, 0.0, hi);
      }
    }
    if |scores| > 0 {
      MeanBounds(Take(scores, 5), 0.0, hi);
    }
    if |scores| > 5 {
      MeanBounds(scores[5..], 0.0, hi);
    }
  }
}
