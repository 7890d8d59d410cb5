/** frontend/src/components/HowItWorks.jsx: three slides browsed cyclically. */
module HowItWorks {

  datatype Slide = Slide(step: string, title: string)

  const Slides: seq<Slide> := [
    Slide("01", "Create an Account"),
    Slide("02", "Choose Your Interview Type"),
    Slide("03", "Start Your Mock Interview")]

  /** `(prev + 1) % slides.length`. */
  function NextIndex(i: nat): (j: nat)
    ensures j < |Slides|
    ensures i + 1 < |Slides| ==> j == i + 1
    ensures i == |Slides| - 1 ==> j == 0
  {
    (i + 1) % |Slides|
  }

  /** `(prev - 1 + slides.length) % slides.length`. */
  function PrevIndex(i: nat): (j: nat)
    requires i < |Slides|
    ensures j < |Slides|
    ensures i > 0 ==> j == i - 1
    ensures i == 0 ==> j == |Slides| - 1
  {
    (i - 1 + |Slides|) % |Slides|
  }

  /** Next and previous undo each other, and three steps forward come back to
      the same slide. */
  lemma NextPrevInverse(i: nat)
    requires i < |Slides|
    ensures PrevIndex(NextIndex(i)) == i
    ensures NextIndex(PrevIndex(i)) == i
    ensures NextIndex(NextIndex(NextIndex(i))) == i
  {
  }

  /** The carousel's state: the index of the slide on screen. */
  class Carousel {
    var current: nat

    ghost predicate Valid()
      reads this
    {
      current < |Slides|
    }

    constructor ()
      ensures Valid() && current == 0
    {
      current := 0;
    }

    method HandleNext()
      requires Valid()
      modifies this
      ensures Valid() && current == NextIndex(old(current))
    {
      current := (current + 1) % |Slides|;
    }

    method HandlePrev()
      requires Valid()
      modifies this
      ensures Valid() && current == PrevIndex(old(current))
    {
      current := (current - 1 + |Slides|) % |Slides|;
    }
  }
}
