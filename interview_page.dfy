/** frontend/src/components/InterviewPage.jsx: the `mm:ss` clock, the
    per-question countdown, the progress bar and the submit guard. */
module InterviewPage {
  import opened Common

  /** Ten minutes per question; the countdown starts one second short of it. */
  const QuestionSeconds: int := 600

  /** `formatTime`: whole minutes and the remaining seconds, each padded to two
      digits with zeros. */
  function FormatTime(total: nat): (r: string)
    ensures |r| >= 5 && r[|r| - 3] == ':'
    ensures total < 6000 ==> |r| == 5
  {
    var m := total / 60;
    var s := total % 60;
    PadStart(NatToString(m), 2, '0') + ":" + PadStart(NatToString(s), 2, '0')
  }

  /** A zero in front of a digit string does not change its value. */
  lemma {:induction false} LeadingZero(s: string)
    requires forall i :: 0 <= i < |s| ==> IsDigit(s[i])
    ensures DigitsValue("0" + s) == DigitsValue(s)
    decreases |s|
  {
    if s != [] {
      var t := "0" + s;
      assert t[..|t| - 1] == "0" + s[..|s| - 1];
      LeadingZero(s[..|s| - 1]);
    }
  }

  /** Zero padding keeps the value of a digit string. */
  lemma PaddedValue(s: string)
    requires |s| > 0 && forall i :: 0 <= i < |s| ==> IsDigit(s[i])
    ensures var p := PadStart(s, 2, '0');
            (forall i :: 0 <= i < |p| ==> IsDigit(p[i])) && DigitsValue(p) == DigitsValue(s)
  {
    var p := PadStart(s, 2, '0');
    if |s| < 2 {
      assert p == "0" + s;
      LeadingZero(s);
    }
  }

  /** The clock reads back as the time it shows: the digits before the colon are
      the minutes and the two after it the seconds, below 60. */
  lemma FormatTimeRoundTrip(total: nat)
    ensures var r := FormatTime(total);
            (forall i :: 0 <= i < |r| && i != |r| - 3 ==> IsDigit(r[i]))
            && DigitsValue(r[..|r| - 3]) * 60 + DigitsValue(r[|r| - 2..]) == total
            && DigitsValue(r[|r| - 2..]) < 60
  {
    var m := total / 60;
    var s := total % 60;
    var pm := PadStart(NatToString(m), 2, '0');
    var ps := PadStart(NatToString(s), 2, '0');
    PaddedValue(NatToString(m));
    PaddedValue(NatToString(s));
    NatToStringRoundTrip(m);
    NatToStringRoundTrip(s);
    SplitAtColon(pm, ps);
  }

  /** The two halves of `a:b`, for a two-character `b`. */
  lemma SplitAtColon(a: string, b: string)
    requires |b| == 2
    ensures var r := a + ":" + b;
            |r| == |a| + 3 && r[..|r| - 3] == a && r[|r| - 2..] == b
            && (forall i :: 0 <= i < |a| ==> r[i] == a[i])
            && r[|a|] == ':' && r[|a| + 1] == b[0] && r[|a| + 2] == b[1]
  {
  }

  /** One tick of the interval: down by one second, never below zero. */
  function Tick(secondsLeft: int): (next: int)
    ensures next >= 0
    ensures secondsLeft > 0 ==> next == secondsLeft - 1
    ensures secondsLeft <= 0 ==> next == 0
  {
    if secondsLeft > 0 then secondsLeft - 1 else 0
  }

  /** The countdown after `n` ticks. */
  function Ticks(secondsLeft: int, n: nat): int {
    if n == 0 then secondsLeft else Tick(Ticks(secondsLeft, n - 1))
  }

  /** From a non-negative start, `n` ticks leave `max(start - n, 0)`: the clock
      never goes negative and, once at zero, stays there. */
  lemma {:induction false} TicksClamp(secondsLeft: nat, n: nat)
    ensures Ticks(secondsLeft, n) == Max(secondsLeft - n, 0)
  {
    if n > 0 {
      TicksClamp(secondsLeft, n - 1);
    }
  }

  /** `timeUp`. */
  predicate TimeUp(secondsLeft: int) { secondsLeft <= 0 }

  /** A fresh question's clock runs out after exactly 599 ticks. */
  lemma ClockRunsOut(n: nat)
    ensures TimeUp(Ticks(QuestionSeconds - 1, n)) <==> n >= QuestionSeconds - 1
  {
    TicksClamp(QuestionSeconds - 1, n);
  }

  /** `Math.min(prev + 10, 100)`. */
  function NextProgress(progress: int): (p: int)
    ensures p == Min(progress + 10, 100)
    ensures 0 <= progress <= 100 ==> progress <= p <= 100
  {
    if progress + 10 <= 100 then progress + 10 else 100
  }

  /** `onSubmit` goes ahead only with a question on screen and an answer that is
      not blank after trimming. */
  function SubmitProceeds(hasQuestion: bool, answer: string): (go: bool)
    ensures go <==> hasQuestion && !Blank(answer)
  {
    TrimEmptyIffBlank(answer);
    hasQuestion && |Trim(answer)| != 0
  }

  /** The submit button is disabled when time is up, while submitting, or when
      the answer is blank. */
  function SubmitDisabled(secondsLeft: int, submitting: bool, answer: string): (disabled: bool)
    ensures disabled <==> TimeUp(secondsLeft) || submitting || Blank(answer)
  {
    TrimEmptyIffBlank(answer);
    TimeUp(secondsLeft) || submitting || |Trim(answer)| == 0
  }

  /** An answer the screen sends is never one the server refuses as missing. */
  lemma SentAnswersAreTruthy(hasQuestion: bool, answer: string)
    requires SubmitProceeds(hasQuestion, answer)
    ensures Truthy(Some(answer))
  {
    assert Blank("");
  }

  /** The screen's timer and progress state. */
  class InterviewScreen {
    var secondsLeft: int
    var progress: int

    ghost predicate Valid()
      reads this
    {
      0 <= secondsLeft < QuestionSeconds && 0 <= progress <= 100
    }

    constructor ()
      ensures Valid() && secondsLeft == QuestionSeconds - 1 && progress == 0
    {
      secondsLeft := QuestionSeconds - 1;
      progress := 0;
    }

    /** One second of the interval. */
    method OnTick()
      requires Valid()
      modifies this
      ensures Valid() && secondsLeft == Tick(old(secondsLeft)) && progress == old(progress)
    {
      secondsLeft := if secondsLeft > 0 then secondsLeft - 1 else 0;
    }

    /** A question arrived: the clock restarts and, when the reply names its
        interview, progress moves on by 10, capped at 100. */
    method OnQuestionLoaded(hasInterviewId: bool)
      requires Valid()
      modifies this
      ensures Valid() && secondsLeft == QuestionSeconds - 1
      ensures progress == (if hasInterviewId then NextProgress(old(progress)) else old(progress))
      ensures old(progress) <= progress
    {
      secondsLeft := QuestionSeconds - 1;
      if hasInterviewId {
        progress := Min(progress + 10, 100);
      }
    }
  }
}
