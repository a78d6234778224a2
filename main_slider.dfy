/** The carousel index of Client/src/components/home/MainSlider.jsx: next and
    previous wrap around the slide list, an indicator jumps to its slide, and
    the slide whose index equals the current one is the active one. */
module MainSlider {
  import opened Common

  /** The slider shows two slides. */
  const SLIDE_COUNT: nat := 2

  /** The index the slider starts at. */
  const INITIAL_SLIDE: int := 0

  /** nextSlide's updater: the last slide goes back to 0, any other moves up one. */
  function NextSlide(prev: int, count: nat): (r: int)
    ensures 0 <= prev < count ==> 0 <= r < count
    ensures prev == count - 1 ==> r == 0
  {
    if prev == count - 1 then 0 else prev + 1
  }

  /** prevSlide's updater: slide 0 goes to the last slide, any other moves down one. */
  function PrevSlide(prev: int, count: nat): (r: int)
    ensures 0 <= prev < count ==> 0 <= r < count
    ensures prev == 0 ==> r == count - 1
  {
    if prev == 0 then count - 1 else prev - 1
  }

  /** goToSlide: whatever the previous index, the clicked slide becomes the
      only active one; an index outside the list leaves no slide active. */
  function GoToSlide(prev: int, index: int): (r: int)
    ensures 0 <= index < SLIDE_COUNT ==> 0 <= r < SLIDE_COUNT
    ensures ActiveSlides(r, SLIDE_COUNT) == if 0 <= index < SLIDE_COUNT then [index] else []
  {
    OneActiveSlide(index, SLIDE_COUNT);
    index
  }

  /** Previous undoes next and next undoes previous on every valid index. */
  lemma NextPrevInverse(i: int, count: nat)
    requires 0 <= i < count
    ensures PrevSlide(NextSlide(i, count), count) == i
    ensures NextSlide(PrevSlide(i, count), count) == i
  {
  }

  /** k clicks on next. */
  function NextTimes(i: int, count: nat, k: nat): int
  {
    if k == 0 then i else NextSlide(NextTimes(i, count, k - 1), count)
  }

  /** Up to one full turn, k steps forward from i land on i + k, wrapped once. */
  lemma {:induction false} NextTimesWraps(i: int, count: nat, k: nat)
    requires 0 <= i < count && k <= count
    ensures NextTimes(i, count, k) == if i + k < count then i + k else i + k - count
  {
    if k > 0 {
      NextTimesWraps(i, count, k - 1);
    }
  }

  lemma FullCycle(i: int, count: nat)
    requires 0 <= i < count
    ensures NextTimes(i, count, count) == i
  {
    NextTimesWraps(i, count, count);
  }

  /** The positions 0 .. count - 1 the indicators and items are rendered at. */
  function Positions(count: nat): (r: seq<int>)
    ensures |r| == count && forall i :: 0 <= i < count ==> r[i] == i
  {
    seq(count, i => i)
  }

  /** The positions rendered with the 'active' class. */
  function ActiveSlides(current: int, count: nat): seq<int>
  {
    Filter(Positions(count), (i: int) => i == current)
  }

  /** Exactly one slide is active while the index is valid, none otherwise. */
  lemma OneActiveSlide(current: int, count: nat)
    ensures ActiveSlides(current, count) == if 0 <= current < count then [current] else []
  {
    var ps := Positions(count);
    assert Distinct(ps);
    FilterSingleMatch(ps, (i: int) => i == current, current);
    if 0 <= current < count {
      assert ps[current] == current;
    }
  }

  /** From the initial index, every sequence of next, previous and indicator
      clicks keeps exactly one of the two slides active. */
  datatype SlideAction = Next | Prev | GoTo(index: nat)

  function Apply(current: int, a: SlideAction): int
  {
    match a
    case Next => NextSlide(current, SLIDE_COUNT)
    case Prev => PrevSlide(current, SLIDE_COUNT)
    case GoTo(k) => GoToSlide(current, k)
  }

  function Run(current: int, actions: seq<SlideAction>): int
    decreases |actions|
  {
    if actions == [] then current else Run(Apply(current, actions[0]), actions[1..])
  }

  /** The indicators only offer the rendered positions. */
  predicate FromIndicators(actions: seq<SlideAction>)
  {
    forall i :: 0 <= i < |actions| && actions[i].GoTo? ==> actions[i].index < SLIDE_COUNT
  }

  lemma {:induction false} RunStaysInRange(current: int, actions: seq<SlideAction>)
    requires 0 <= current < SLIDE_COUNT && FromIndicators(actions)
    ensures 0 <= Run(current, actions) < SLIDE_COUNT
    decreases |actions|
  {
    if actions != [] {
      assert FromIndicators(actions[1..]) by {
        forall i | 0 <= i < |actions[1..]| && actions[1..][i].GoTo?
          ensures actions[1..][i].index < SLIDE_COUNT
        {
          assert actions[1..][i] == actions[i + 1];
        }
      }
      RunStaysInRange(Apply(current, actions[0]), actions[1..]);
    }
  }

  lemma AlwaysOneActive(actions: seq<SlideAction>)
    requires FromIndicators(actions)
    ensures |ActiveSlides(Run(INITIAL_SLIDE, actions), SLIDE_COUNT)| == 1
  {
    RunStaysInRange(INITIAL_SLIDE, actions);
    OneActiveSlide(Run(INITIAL_SLIDE, actions), SLIDE_COUNT);
  }
}
