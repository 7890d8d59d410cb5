/** The interview document of backend/models/interviewModel.js: the category
    and difficulty enumerations, the embedded question with its defaults, and
    the interview record that the controllers update in place. */
module InterviewModel {
  import opened Common

  datatype Category = Behavioral | Technical | Situational | SoftSkills

  /** The stored spelling of each category. */
  function CategoryName(c: Category): string {
    match c
    case Behavioral => "behavioral"
    case Technical => "technical"
    case Situational => "situational"
    case SoftSkills => "Soft Skills"
  }

  /** The schema's enum check on `category`: only the four stored spellings are
      accepted, case-sensitively, and each names its own category. */
  function ParseCategory(s: string): (r: Option<Category>)
    ensures r.Some? <==> s in {"behavioral", "technical", "situational", "Soft Skills"}
    ensures r.Some? ==> CategoryName(r.value) == s
  {
    if s == "behavioral" then Some(Behavioral)
    else if s == "technical" then Some(Technical)
    else if s == "situational" then Some(Situational)
    else if s == "Soft Skills" then Some(SoftSkills)
    else None
  }

  datatype Difficulty = Beginner | Intermediate | Advanced

  function DifficultyName(d: Difficulty): string {
    match d
    case Beginner => "beginner"
    case Intermediate => "intermediate"
    case Advanced => "advanced"
  }

  /** The schema's enum check on `difficulty`. */
  function ParseDifficulty(s: string): (r: Option<Difficulty>)
    ensures r.Some? <==> s in {"beginner", "intermediate", "advanced"}
    ensures r.Some? ==> DifficultyName(r.value) == s
  {
    if s == "beginner" then Some(Beginner)
    else if s == "intermediate" then Some(Intermediate)
    else if s == "advanced" then Some(Advanced)
    else None
  }

  /** Every category and difficulty survives being stored and validated again. */
  lemma EnumNamesRoundTrip(c: Category, d: Difficulty)
    ensures ParseCategory(CategoryName(c)) == Some(c)
    ensures ParseDifficulty(DifficultyName(d)) == Some(d)
  {
  }

  /** An embedded question. `id` is the sub-document's `_id`. */
  datatype Question = Question(
    id: string,
    questionText: string,
    aiGenerated: bool,
    skipped: bool,
    answer: string,
    feedback: string)

  /** A question lacks an answer (`!q.answer || q.answer === ''`). */
  predicate Unanswered(q: Question) { q.answer == "" }

  /** A question as the schema creates it from its text: `aiGenerated` true,
      not skipped, empty answer and feedback. */
  function NewQuestion(id: string, questionText: string): (q: Question)
    ensures q.id == id && q.questionText == questionText
    ensures q.aiGenerated && !q.skipped && Unanswered(q) && q.feedback == ""
  {
    Question(id, questionText, true, false, "", "")
  }

  /** A plain-value copy of an interview document (what `.lean()` returns). */
  datatype InterviewDoc = InterviewDoc(
    id: string,
    userId: string,
    category: Category,
    difficulty: Difficulty,
    questions: seq<Question>,
    startedAt: Option<int>,
    completedAt: Option<int>,
    completed: bool,
    duration: int)

  /** An interview document. Times are milliseconds since the epoch; `duration`
      is in seconds. The store keeps documents in creation order. */
  class Interview {
    const id: string
    const userId: string
    const category: Category
    const difficulty: Difficulty
    var questions: seq<Question>
    var startedAt: Option<int>
    var completedAt: Option<int>
    var completed: bool
    var duration: int

    /** A new document: not completed, no completion time, duration 0, and
        `startedAt` set to the creation time. */
    constructor (id: string, userId: string, category: Category, difficulty: Difficulty,
                 questions: seq<Question>, now: int)
      ensures Doc() == InterviewDoc(id, userId, category, difficulty, questions, Some(now), None, false, 0)
    {
      this.id := id;
      this.userId := userId;
      this.category := category;
      this.difficulty := difficulty;
      this.questions := questions;
      this.startedAt := Some(now);
      this.completedAt := None;
      this.completed := false;
      this.duration := 0;
    }

    function Doc(): InterviewDoc
      reads this
    {
      InterviewDoc(id, userId, category, difficulty, questions, startedAt, completedAt, completed, duration)
    }
  }

  /** The plain-value copies of a sequence of interview documents. */
  function Docs(ivs: seq<Interview>): (r: seq<InterviewDoc>)
    reads ivs
    ensures |r| == |ivs| && forall i :: 0 <= i < |ivs| ==> r[i] == ivs[i].Doc()
  {
    seq(|ivs|, i requires 0 <= i < |ivs| reads ivs => ivs[i].Doc())
  }
}
