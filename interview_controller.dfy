/** Creating, reading, updating and deleting interviews
    (backend/controllers/interviewController.js): the fallback question bank,
    the generator's fallback dispatch, request normalisation, the ownership
    checks and the completion duration. */
module InterviewController {
  import opened Common
  import opened InterviewModel
  import opened Store

  /** A question as the generator or the fallback bank supplies it. A missing
      text is written "" (the schema's `required` refuses both alike). The
      drafts' explanations are not paths of the schema and are never stored,
      so they are not modelled. */
  datatype QuestionDraft = QuestionDraft(questionText: string)

  const TechnicalQuestions: seq<QuestionDraft> := [
    QuestionDraft("What is a RESTful API and what are its main principles?"),
    QuestionDraft("Explain the concept of asynchronous programming in JavaScript using Promises."),
    QuestionDraft("Compare and contrast SQL vs NoSQL databases. When would you choose one over the other?"),
    QuestionDraft("What is Docker and how does it simplify application deployment?"),
    QuestionDraft("Explain JWT (JSON Web Tokens) authentication flow in a web application.")
  ]

  const BehavioralQuestions: seq<QuestionDraft> := [
    QuestionDraft("Tell me about a technically challenging project you've worked on. What made it difficult and how did you overcome those challenges?"),
    QuestionDraft("Describe a time when you had to resolve a technical disagreement with a team member. How did you handle it?"),
    QuestionDraft("Give an example of when you had to quickly learn and implement a new technology or framework. How did you approach it?"),
    QuestionDraft("How do you manage multiple competing deadlines in your development work? Give a specific example."),
    QuestionDraft("Tell me about a time you took technical leadership on a project or feature. What was your approach and what was the outcome?")
  ]

  /** The key the fallback bank is indexed with: a category that is present and
      not blank after trimming is lower-cased, but not trimmed; anything else is
      "technical". */
  function FallbackKey(category: Option<string>): string {
    if category.Some? && |Trim(category.value)| > 0 then Lower(category.value) else "technical"
  }

  /** The keys the bank object answers from `Object.prototype` that are written
      in lower case, so that a lower-cased category can reach them. Each yields
      a function or an object without `slice`. */
  const PrototypeKeys: set<string> := {"constructor", "__proto__"}

  /** `questions[key] || questions.technical`; None when the value found is an
      inherited member of `Object.prototype`, on which the following `slice`
      call throws a TypeError. */
  function FallbackTable(key: string): Option<seq<QuestionDraft>> {
    if key == "behavioral" then Some(BehavioralQuestions)
    else if key == "technical" then Some(TechnicalQuestions)
    else if key in PrototypeKeys then None
    else Some(TechnicalQuestions)
  }

  /** `getFallbackQuestions(category, count)`: the first `min(count, 5)` entries of
      one bank, in the bank's order; None when the call throws. */
  function GetFallbackQuestions(category: Option<string>, count: nat): (r: Option<seq<QuestionDraft>>)
    ensures r.None? <==> FallbackKey(category) in PrototypeKeys
    ensures r.Some? ==> |r.value| == Min(count, 5)
    ensures r.Some? ==> forall i :: 0 <= i < |r.value| ==> r.value[i] == FallbackTable(FallbackKey(category)).value[i]
  {
    match FallbackTable(FallbackKey(category))
    case None => None
    case Some(bank) => Some(bank[..Min(count, 5)])
  }

  /** A category whose lower-case form starts with something other than white
      space is not blank, so it is the one that gets lower-cased into the key. */
  lemma KeyOfPresentCategory(c: string)
    requires |Lower(c)| > 0 && !IsSpace(Lower(c)[0])
    ensures FallbackKey(Some(c)) == Lower(c)
  {
    assert !IsSpace(c[0]);
    TrimEmptyIffBlank(c);
  }

  /** The behavioral bank is chosen exactly when the category is a string whose
      lower-case form is "behavioral"; the call throws exactly when that form is
      a key of `Object.prototype`; every other input, including a missing,
      blank, padded or unknown category, gets the technical bank. */
  lemma FallbackBankChoice(category: Option<string>)
    ensures FallbackTable(FallbackKey(category)) == Some(BehavioralQuestions)
            <==> category.Some? && Lower(category.value) == "behavioral"
    ensures FallbackTable(FallbackKey(category)).None?
            <==> category.Some? && Lower(category.value) in PrototypeKeys
    ensures FallbackTable(FallbackKey(category)).Some? && FallbackTable(FallbackKey(category)) != Some(BehavioralQuestions)
            ==> FallbackTable(FallbackKey(category)) == Some(TechnicalQuestions)
  {
    assert BehavioralQuestions[0].questionText != TechnicalQuestions[0].questionText;
    if category.Some? {
      var c := category.value;
      var l := Lower(c);
      if l == "behavioral" || l == "constructor" || l == "__proto__" {
        assert l[0] == 'b' || l[0] == 'c' || l[0] == '_';
        KeyOfPresentCategory(c);
      }
    }
  }

  /** What the question generator's call produced: no client was configured,
      the call threw, or it answered with some text. */
  datatype GeneratorReply = NoClient | CallFailed | Replied(content: string)

  /** `generateQuestions`: the parsed reply when there is one that parses, and
      otherwise the fallback bank for the category, truncated to `count`; None
      when the fallback throws. `parseJson` stands for `JSON.parse` on the
      reply text. */
  function GenerateQuestions(category: Option<string>, count: nat, reply: GeneratorReply,
                             parseJson: string -> Option<seq<QuestionDraft>>): (r: Option<seq<QuestionDraft>>)
    ensures reply.Replied? && parseJson(reply.content).Some? ==> r == parseJson(reply.content)
    ensures !(reply.Replied? && parseJson(reply.content).Some?) ==>
              (r.None? <==> FallbackKey(category) in PrototypeKeys)
              && (r.Some? ==> |r.value| == Min(count, 5)
                              && r.value == FallbackTable(FallbackKey(category)).value[..|r.value|])
  {
    match reply
    case NoClient => GetFallbackQuestions(category, count)
    case CallFailed => GetFallbackQuestions(category, count)
    case Replied(content) =>
      match parseJson(content)
      case Some(questions) => Some(questions)
      case None => GetFallbackQuestions(category, count)
  }

  /** The normalised category `createInterview` hands to the generator always
      has a bank: the behavioral one for "behavioral", the technical one for
      "technical". */
  lemma NormalizedCategoryHasBank(c: Category)
    requires c == Technical || c == Behavioral
    ensures FallbackTable(FallbackKey(Some(CategoryName(c))))
            == Some(if c == Behavioral then BehavioralQuestions else TechnicalQuestions)
  {
    var name := CategoryName(c);
    assert Lower(name) == name;
    KeyOfPresentCategory(name);
  }

  /** The category `createInterview` stores: "technical" when absent, then
      lower-cased, and anything but "technical" or "behavioral" becomes
      "technical". */
  function NormalizeCategory(category: Option<string>): (c: Category)
    ensures c == Technical || c == Behavioral
    ensures c == Behavioral <==> category.Some? && Lower(category.value) == "behavioral"
  {
    var lowered := Lower(if category.None? then "technical" else category.value);
    if lowered == "technical" then Technical
    else if lowered == "behavioral" then Behavioral
    else Technical
  }

  /** `(difficulty || '').toLowerCase()`. */
  function NormalizeDifficulty(difficulty: Option<string>): (d: string)
    ensures d == "" <==> !Truthy(difficulty)
  {
    Lower(OrElse(difficulty, ""))
  }

  /** The drafts `createInterview` obtains: it asks for 5 questions in the
      normalised category, for which the generator never throws. */
  function InterviewDrafts(category: Option<string>, reply: GeneratorReply,
                           parseJson: string -> Option<seq<QuestionDraft>>): (r: seq<QuestionDraft>)
    ensures Some(r) == GenerateQuestions(Some(CategoryName(NormalizeCategory(category))), 5, reply, parseJson)
  {
    NormalizedCategoryHasBank(NormalizeCategory(category));
    GenerateQuestions(Some(CategoryName(NormalizeCategory(category))), 5, reply, parseJson).value
  }

  /** The embedded questions the schema builds from drafts, numbered by the
      sub-document ids `questionId(0)`, `questionId(1)`, ... */
  function ToQuestions(drafts: seq<QuestionDraft>, questionId: nat -> string): (qs: seq<Question>)
    ensures |qs| == |drafts|
    ensures forall i :: 0 <= i < |qs| ==> qs[i] == NewQuestion(questionId(i), drafts[i].questionText)
  {
    seq(|drafts|, i requires 0 <= i < |drafts| => NewQuestion(questionId(i), drafts[i].questionText))
  }

  /** The schema accepts the questions when every one has a text. */
  predicate QuestionsValid(drafts: seq<QuestionDraft>) {
    forall i :: 0 <= i < |drafts| ==> drafts[i].questionText != ""
  }

  const ValidationFailed: string := "Interview validation failed"

  /** `Interview.create`: a new in-progress document, stored after the existing ones. */
  method StoreInterview(db: Db, id: string, userId: string, category: Category, difficulty: Difficulty,
                        questions: seq<Question>, now: int)
    returns (iv: Interview)
    requires db.Valid()
    modifies db
    ensures db.Valid() && db.payments == old(db.payments) && db.users == old(db.users)
    ensures fresh(iv) && db.interviews == old(db.interviews) + [iv]
    ensures iv.Doc() == InterviewDoc(id, userId, category, difficulty, questions, Some(now), None, false, 0)
  {
    iv := new Interview(id, userId, category, difficulty, questions, now);
    db.interviews := db.interviews + [iv];
  }

  /** `createInterview`. The caller's id is `user` (absent when the request is
      not authenticated); questions come from a request for 5. The store's
      validation of the difficulty and of the question texts fails with 500
      and creates nothing. */
  method CreateInterview(db: Db, user: Option<string>, category: Option<string>, difficulty: Option<string>,
                         reply: GeneratorReply, parseJson: string -> Option<seq<QuestionDraft>>,
                         newId: string, questionId: nat -> string, now: int)
    returns (r: Response<InterviewDoc>)
    requires db.Valid()
    modifies db
    ensures db.Valid() && db.payments == old(db.payments) && db.users == old(db.users)
    ensures !Truthy(user) ==> r == Err(401, "Not authorized. Please log in.")
    ensures Truthy(user) && NormalizeDifficulty(difficulty) == "" ==> r == Err(400, "Missing difficulty.")
    ensures Truthy(user) && NormalizeDifficulty(difficulty) != "" && r.Err? ==> r.status == 500
    ensures r.Err? ==> db.interviews == old(db.interviews)
    ensures r.Ok? <==> Truthy(user) && ParseDifficulty(NormalizeDifficulty(difficulty)).Some?
                       && QuestionsValid(InterviewDrafts(category, reply, parseJson))
    ensures r.Ok? ==>
      && r.status == 201
      && |db.interviews| == |old(db.interviews)| + 1
      && db.interviews[..|old(db.interviews)|] == old(db.interviews)
      && fresh(db.interviews[|old(db.interviews)|])
      && db.interviews[|old(db.interviews)|].Doc() == r.body
      && r.body == InterviewDoc(newId, user.value, NormalizeCategory(category),
                                ParseDifficulty(NormalizeDifficulty(difficulty)).value,
                                ToQuestions(InterviewDrafts(category, reply, parseJson), questionId),
                                Some(now), None, false, 0)
  {
    var cat := NormalizeCategory(category);
    var diff := NormalizeDifficulty(difficulty);
    if !Truthy(user) {
      return Err(401, "Not authorized. Please log in.");
    }
    if diff == "" {
      return Err(400, "Missing difficulty.");
    }
    var drafts := InterviewDrafts(category, reply, parseJson);
    var parsed := ParseDifficulty(diff);
    if parsed.None? || !QuestionsValid(drafts) {
      return Err(500, ValidationFailed);
    }
    var before := db.interviews;
    var iv := StoreInterview(db, newId, user.value, cat, parsed.value, ToQuestions(drafts, questionId), now);
    assert db.interviews[..|before|] == before;
    r := Ok(201, iv.Doc());
  }

  /** A freshly created interview is in progress, started at creation time, and
      none of its questions has an answer, feedback or skip mark yet. */
  lemma CreatedInterviewIsFresh(user: string, category: Option<string>, d: Difficulty,
                                drafts: seq<QuestionDraft>, newId: string, questionId: nat -> string, now: int)
    ensures var doc := InterviewDoc(newId, user, NormalizeCategory(category), d,
                                    ToQuestions(drafts, questionId), Some(now), None, false, 0);
            !doc.completed && doc.completedAt.None? && doc.duration == 0
            && doc.category in {Technical, Behavioral}
            && forall i :: 0 <= i < |doc.questions| ==>
                 Unanswered(doc.questions[i]) && doc.questions[i].feedback == "" && !doc.questions[i].skipped
  {
  }

  /** The lookup get, update and delete share: the first document with the id,
      404 when there is none, and 403 when it belongs to someone else. There is
      no exception for administrators. */
  function OwnedInterview(docs: seq<InterviewDoc>, id: string, requester: string, action: string): (r: Response<nat>)
    ensures r.Err? ==> r.status == 404 || r.status == 403
    ensures (r.Err? && r.status == 404) <==> forall j :: 0 <= j < |docs| ==> docs[j].id != id
    ensures (r.Err? && r.status == 403) ==> exists j :: 0 <= j < |docs| && docs[j].id == id && docs[j].userId != requester
    ensures var first := FirstWhere(docs, (d: InterviewDoc) => d.id == id);
            (r.Err? && r.status == 403) <==> first.Some? && docs[first.value].userId != requester
    ensures r.Ok? ==> r.body < |docs| && docs[r.body].id == id && docs[r.body].userId == requester
    ensures r.Ok? ==> forall j :: 0 <= j < r.body ==> docs[j].id != id
  {
    match FirstWhere(docs, (d: InterviewDoc) => d.id == id)
    case None => Err(404, "Interview not found")
    case Some(k) =>
      if docs[k].userId != requester then Err(403, "User not authorized to " + action + " this interview")
      else Ok(200, k)
  }

  /** `getInterviewById`: the document, to its owner only. */
  function GetInterviewById(db: Db, id: string, requester: string): (r: Response<InterviewDoc>)
    reads db, db.interviews
    ensures r.Ok? ==> r.status == 200 && r.body.id == id && r.body.userId == requester && r.body in Docs(db.interviews)
    ensures var found := OwnedInterview(Docs(db.interviews), id, requester, "access");
            r.Err? <==> found.Err? && (r.Err? ==> r.status == found.status && r.message == found.message)
  {
    var docs := Docs(db.interviews);
    match OwnedInterview(docs, id, requester, "access")
    case Err(s, m) => Err(s, m)
    case Ok(_, k) => Ok(200, docs[k])
  }

  /** `max(0, floor(elapsed / 1000))`, the completion duration in seconds. */
  function DurationSeconds(startedAt: int, completedAt: int): (d: nat)
    ensures completedAt < startedAt ==> d == 0
    ensures completedAt >= startedAt ==> d * 1000 <= completedAt - startedAt < (d + 1) * 1000
  {
    // Dafny's division by a positive divisor rounds down, like Math.floor.
    Max(0, (completedAt - startedAt) / 1000)
  }

  /** The fields an update with `status == "completed"` sets: the flag, the
      completion time, and the duration when the start time is known. */
  function Complete(d: InterviewDoc, now: int): InterviewDoc {
    d.(completed := true, completedAt := Some(now),
       duration := if d.startedAt.Some? then DurationSeconds(d.startedAt.value, now) else d.duration)
  }

  /** After completion at `now`, a started interview's duration is the whole
      number of seconds since its start, and 0 if the clock went backwards. */
  lemma CompletedDuration(d: InterviewDoc, now: int)
    requires d.startedAt.Some?
    ensures var c := Complete(d, now);
            c.completed && c.completedAt == Some(now) && c.duration >= 0
            && (now >= d.startedAt.value ==> c.duration * 1000 <= now - d.startedAt.value < c.duration * 1000 + 1000)
            && (now < d.startedAt.value ==> c.duration == 0)
            && c.questions == d.questions && c.startedAt == d.startedAt
  {
  }

  /** `updateInterview`. Only `status == "completed"` changes anything: the
      `answers` field of the request is not a path of the schema. Completing an
      already completed interview stamps it again. */
  method UpdateInterview(db: Db, id: string, requester: string, status: Option<string>, now: int)
    returns (r: Response<InterviewDoc>)
    requires db.Valid()
    modifies db.interviews
    ensures db.interviews == old(db.interviews)
    ensures match old(OwnedInterview(Docs(db.interviews), id, requester, "update"))
      case Err(s, m) => r == Err(s, m) && Docs(db.interviews) == old(Docs(db.interviews))
      case Ok(_, k) =>
        var updated := if status == Some("completed") then Complete(old(Docs(db.interviews))[k], now)
                       else old(Docs(db.interviews))[k];
        r == Ok(200, updated) && Docs(db.interviews) == old(Docs(db.interviews))[k := updated]
  {
    var found := OwnedInterview(Docs(db.interviews), id, requester, "update");
    if found.Err? {
      return Err(found.status, found.message);
    }
    var iv := db.interviews[found.body];
    if status == Some("completed") {
      iv.completed := true;
      iv.completedAt := Some(now);
      if iv.startedAt.Some? {
        iv.duration := DurationSeconds(iv.startedAt.value, now);
      }
    }
    r := Ok(200, iv.Doc());
  }

  /** `deleteInterview`: the owner's document leaves the store. */
  method DeleteInterview(db: Db, id: string, requester: string) returns (r: Response<string>)
    requires db.Valid()
    modifies db
    ensures db.Valid() && db.payments == old(db.payments) && db.users == old(db.users)
    ensures match old(OwnedInterview(Docs(db.interviews), id, requester, "delete"))
      case Err(s, m) => r == Err(s, m) && db.interviews == old(db.interviews)
      case Ok(_, k) =>
        r == Ok(200, "Interview removed") && db.interviews == old(db.interviews[..k] + db.interviews[k + 1..])
  {
    var found := OwnedInterview(Docs(db.interviews), id, requester, "delete");
    if found.Err? {
      return Err(found.status, found.message);
    }
    var k := found.body;
    db.interviews := db.interviews[..k] + db.interviews[k + 1..];
    r := Ok(200, "Interview removed");
  }

  /** `getInterviews`: the caller's documents, in store order. */
  function UserInterviews(docs: seq<InterviewDoc>, user: string): (r: seq<InterviewDoc>)
    ensures |r| <= |docs|
    ensures forall i :: 0 <= i < |r| ==> r[i].userId == user && r[i] in docs
    ensures forall d :: d in docs && d.userId == user ==> d in r
  {
    Filter(docs, (d: InterviewDoc) => d.userId == user)
  }

  /** The list keeps store order: a newly stored interview of the caller comes
      last, and anyone else's leaves the list as it was. */
  lemma NewInterviewListedLast(docs: seq<InterviewDoc>, d: InterviewDoc, user: string)
    ensures UserInterviews(docs + [d], user) == UserInterviews(docs, user) + (if d.userId == user then [d] else [])
  {
    var p := (x: InterviewDoc) => x.userId == user;
    FilterAppend(docs, [d], p);
    assert Filter([d], p) == (if p(d) then [d] else []) + Filter([d][1..], p);
  }
}
