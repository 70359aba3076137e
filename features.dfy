/** Model of the scroll-driven feature showcase: a sticky container whose scroll
    handler turns the enclosing section's position into a progress value in [0, 1] and
    a prefix of visible slides, and the per-slide arithmetic that turns progress into
    opacity, vertical offset and scale. */
module Features {

  datatype Option<T> = None | Some(value: T)

  /** How far the reveal of later slides runs ahead of the scroll position. */
  const Stagger: real := 1.2

  /** Offset in px of a slide that has not appeared yet. */
  const HiddenOffset: real := 60.0

  /** Scale of a slide that has not appeared yet. */
  const HiddenScale: real := 0.9

  /** Transition delay in ms between one slide and the next. */
  const DelayStep: int := 200

  /** The numbers behind one slide's inline style. */
  datatype SlideStyle = SlideStyle(
    opacity: real,
    translateY: real,
    scale: real,
    zIndex: int,
    delayMs: int,
    glowOpacity: real)

  function Abs(x: real): real
  {
    if x < 0.0 then -x else x
  }

  function MinReal(a: real, b: real): real
  {
    if a <= b then a else b
  }

  function MaxReal(a: real, b: real): real
  {
    if a >= b then a else b
  }

  function MinInt(a: int, b: int): int
  {
    if a <= b then a else b
  }

  // ---------------------------------------------------------------------------
  // Scroll progress
  // ---------------------------------------------------------------------------

  /** Height of the spacer after the sticky container, in units of the viewport height
      (the CSS `vh` unit is one hundredth of it). */
  function SpacerHeightVh(slideCount: int): int
  {
    (slideCount - 1) * 100
  }

  /** The scroll distance over which progress runs from 0 to 1: one viewport height per
      slide after the first, which is exactly the spacer's height. */
  function ScrollDistance(slideCount: int, viewportHeight: real): (d: real)
    requires 2 <= slideCount && 0.0 < viewportHeight
    ensures d > 0.0
    ensures d == (SpacerHeightVh(slideCount) as real) * viewportHeight / 100.0
  {
    (slideCount - 1) as real * viewportHeight
  }

  /** Progress through the section: the distance scrolled past its top over the total
      scroll distance, clamped to [0, 1]. */
  function ScrollProgress(sectionTop: real, slideCount: int, viewportHeight: real): (p: real)
    requires 2 <= slideCount && 0.0 < viewportHeight
    ensures 0.0 <= p <= 1.0
    ensures p == 0.0 <==> sectionTop == 0.0
    ensures p == 1.0 <==> Abs(sectionTop) >= ScrollDistance(slideCount, viewportHeight)
    ensures p < 1.0 ==> p * ScrollDistance(slideCount, viewportHeight) == Abs(sectionTop)
  {
    var d := ScrollDistance(slideCount, viewportHeight);
    var scrolledIntoSection := Abs(sectionTop);
    DivBounds(scrolledIntoSection, d);
    MinReal(MaxReal(scrolledIntoSection / d, 0.0), 1.0)
  }

  /** Facts about a non-negative quotient that the solver does not find unaided. */
  lemma DivBounds(a: real, d: real)
    requires 0.0 <= a && 0.0 < d
    ensures a / d >= 0.0
    ensures a / d * d == a
    ensures a / d == 0.0 <==> a == 0.0
    ensures a / d >= 1.0 <==> a >= d
  {
  }

  /** Scrolling further into the section never lowers progress. */
  lemma ProgressMonotone(top1: real, top2: real, slideCount: int, viewportHeight: real)
    requires 2 <= slideCount && 0.0 < viewportHeight
    requires Abs(top1) <= Abs(top2)
    ensures ScrollProgress(top1, slideCount, viewportHeight) <= ScrollProgress(top2, slideCount, viewportHeight)
  {
    var d := ScrollDistance(slideCount, viewportHeight);
    DivMonotone(Abs(top1), Abs(top2), d);
  }

  lemma DivMonotone(a: real, b: real, d: real)
    requires 0.0 <= a <= b && 0.0 < d
    ensures a / d <= b / d
  {
    DivBounds(a, d);
    DivBounds(b, d);
    if a / d > b / d {
      MulMonotone(b / d, a / d, d);
    }
  }

  lemma MulMonotone(x: real, y: real, d: real)
    requires x <= y && 0.0 <= d
    ensures x * d <= y * d
  {
    assert y * d - x * d == (y - x) * d;
  }

  // ---------------------------------------------------------------------------
  // Visible prefix
  // ---------------------------------------------------------------------------

  /** The last visible slide: the number of slides the progress has reached, capped at
      the last slide. */
  function LastVisible(progress: real, slideCount: int): (k: int)
    requires 0.0 <= progress <= 1.0 && 1 <= slideCount
    ensures 0 <= k < slideCount
    ensures k as real <= progress * slideCount as real
    ensures k == slideCount - 1 || progress * slideCount as real < (k + 1) as real
  {
    MulMonotone(0.0, progress, slideCount as real);
    MinInt((progress * slideCount as real).Floor, slideCount - 1)
  }

  /** The visible slide indices, in order: 0 up to the last visible slide. */
  function VisiblePrefix(progress: real, slideCount: int): (s: seq<int>)
    requires 0.0 <= progress <= 1.0 && 1 <= slideCount
    ensures |s| >= 1 && s[0] == 0
    ensures forall j :: 0 <= j < |s| ==> 0 <= s[j] < slideCount
    ensures forall j, k :: 0 <= j < k < |s| ==> s[j] < s[k]
    ensures forall i :: i in s <==> 0 <= i <= LastVisible(progress, slideCount)
  {
    var s := seq(LastVisible(progress, slideCount) + 1, i => i);
    assert forall i :: i in s <==> 0 <= i < |s| by {
      forall i ensures i in s <==> 0 <= i < |s| {
        if 0 <= i < |s| {
          assert s[i] == i;
        }
      }
    }
    s
  }

  /** The loop of the scroll handler that lists the visible slides one push at a time. */
  method BuildVisibleSections(progress: real, totalSections: int) returns (sections: seq<int>)
    requires 0.0 <= progress <= 1.0 && 1 <= totalSections
    ensures sections == VisiblePrefix(progress, totalSections)
  {
    MulMonotone(0.0, progress, totalSections as real);
    var sectionsToShow := (progress * totalSections as real).Floor;
    var last := MinInt(sectionsToShow, totalSections - 1);
    sections := [];
    var i := 0;
    while i <= last
      invariant 0 <= i <= last + 1
      invariant |sections| == i
      invariant forall j :: 0 <= j < i ==> sections[j] == j
    {
      sections := sections + [i];
      i := i + 1;
    }
  }

  /** More progress never hides a slide that was visible. */
  lemma VisibilityMonotone(p1: real, p2: real, slideCount: int, i: int)
    requires 0.0 <= p1 <= p2 <= 1.0 && 1 <= slideCount
    requires i in VisiblePrefix(p1, slideCount)
    ensures i in VisiblePrefix(p2, slideCount)
  {
    var x1, x2 := p1 * slideCount as real, p2 * slideCount as real;
    MulMonotone(p1, p2, slideCount as real);
    assert x1 <= x2;
    assert x1.Floor <= x2.Floor;
  }

  // ---------------------------------------------------------------------------
  // Per-slide animation values
  // ---------------------------------------------------------------------------

  /** How far slide `index` is through its own reveal, in [0, 1]. */
  function AnimationProgress(progress: real, slideCount: int, index: int): (a: real)
    ensures 0.0 <= a <= 1.0
    ensures a == 0.0 <==> progress * slideCount as real * Stagger <= index as real
    ensures a == 1.0 <==> progress * slideCount as real * Stagger >= (index + 1) as real
    ensures 0.0 < a < 1.0 ==> a == progress * slideCount as real * Stagger - index as real
  {
    var sectionProgress := MaxReal(0.0, progress * slideCount as real * Stagger - index as real);
    MinReal(sectionProgress, 1.0)
  }

  /** A slide's reveal never goes backwards as progress grows. */
  lemma AnimationProgressMonotone(p1: real, p2: real, slideCount: int, index: int)
    requires p1 <= p2 && 0 <= slideCount
    ensures AnimationProgress(p1, slideCount, index) <= AnimationProgress(p2, slideCount, index)
  {
    var rate := slideCount as real * Stagger;
    MulMonotone(p1, p2, rate);
    assert p1 * slideCount as real * Stagger == p1 * rate;
    assert p2 * slideCount as real * Stagger == p2 * rate;
    ClampMonotone(p1 * rate - index as real, p2 * rate - index as real);
  }

  /** Clamping to [0, 1] keeps the order of its arguments. */
  lemma ClampMonotone(x: real, y: real)
    requires x <= y
    ensures MinReal(MaxReal(0.0, x), 1.0) <= MinReal(MaxReal(0.0, y), 1.0)
  {
  }

  /** A later slide is never further through its reveal than an earlier one. */
  lemma LaterSlidesLag(progress: real, slideCount: int, i: int, j: int)
    requires i <= j
    ensures AnimationProgress(progress, slideCount, j) <= AnimationProgress(progress, slideCount, i)
  {
  }

  /** The style of slide `index`: invisible slides wait 60 px low at 90% scale; visible
      ones rise and grow with their reveal. */
  function SlideStyleOf(progress: real, slideCount: int, index: int, isVisible: bool): (s: SlideStyle)
    ensures 0.0 <= s.opacity <= 1.0
    ensures !isVisible ==> s.opacity == 0.0 && s.translateY == HiddenOffset && s.scale == HiddenScale
    ensures isVisible ==> s.opacity == AnimationProgress(progress, slideCount, index)
    ensures s.translateY == (1.0 - s.opacity) * HiddenOffset && 0.0 <= s.translateY <= HiddenOffset
    ensures s.scale == HiddenScale + 0.1 * s.opacity && HiddenScale <= s.scale <= 1.0
    ensures s.glowOpacity == 0.3 * AnimationProgress(progress, slideCount, index) && 0.0 <= s.glowOpacity <= 0.3
    ensures s.zIndex == 10 + index
    ensures s.delayMs == index * DelayStep
  {
    var animationProgress := AnimationProgress(progress, slideCount, index);
    var opacity := if isVisible then animationProgress else 0.0;
    var translateY := if isVisible then (1.0 - animationProgress) * HiddenOffset else HiddenOffset;
    var scale := if isVisible then HiddenScale + animationProgress * 0.1 else HiddenScale;
    SlideStyle(opacity, translateY, scale, 10 + index, index * DelayStep, 0.3 * animationProgress)
  }

  /** Later slides start their transition later and stack above earlier ones. */
  lemma LaterSlidesStartLaterAndStackHigher(progress: real, slideCount: int, i: int, j: int, vi: bool, vj: bool)
    requires 0 <= i < j
    ensures SlideStyleOf(progress, slideCount, i, vi).delayMs < SlideStyleOf(progress, slideCount, j, vj).delayMs
    ensures SlideStyleOf(progress, slideCount, i, vi).zIndex < SlideStyleOf(progress, slideCount, j, vj).zIndex
  {
  }

  /** The style a slide gets from the handler's sticky-mode state at a given progress. */
  function StickySlideStyle(progress: real, slideCount: int, index: int): SlideStyle
    requires 0.0 <= progress <= 1.0 && 1 <= slideCount
  {
    SlideStyleOf(progress, slideCount, index, index in VisiblePrefix(progress, slideCount))
  }

  /** In sticky mode, scrolling further never makes a slide fainter. */
  lemma StickyOpacityMonotone(p1: real, p2: real, slideCount: int, index: int)
    requires 0.0 <= p1 <= p2 <= 1.0 && 1 <= slideCount
    ensures StickySlideStyle(p1, slideCount, index).opacity <= StickySlideStyle(p2, slideCount, index).opacity
  {
    if index in VisiblePrefix(p1, slideCount) {
      VisibilityMonotone(p1, p2, slideCount, index);
      AnimationProgressMonotone(p1, p2, slideCount, index);
    }
  }

  /** At full progress every slide is visible and fully revealed. */
  lemma AllRevealedAtEnd(slideCount: int, index: int)
    requires 1 <= slideCount && 0 <= index < slideCount
    ensures StickySlideStyle(1.0, slideCount, index).opacity == 1.0
    ensures StickySlideStyle(1.0, slideCount, index).translateY == 0.0
    ensures StickySlideStyle(1.0, slideCount, index).scale == 1.0
  {
    assert LastVisible(1.0, slideCount) == slideCount - 1;
  }

  /** At the top of the sticky region the first slide is listed as visible but is fully
      transparent: it animates in like the others. */
  lemma FirstSlideTransparentAtRest(slideCount: int)
    requires 1 <= slideCount
    ensures 0 in VisiblePrefix(0.0, slideCount)
    ensures StickySlideStyle(0.0, slideCount, 0).opacity == 0.0
  {
  }

  /** Six slides at half progress: slides 0 to 3 are visible, slide 3 is 60% through its
      reveal and slide 4, not yet visible, has not started. */
  lemma SixSlidesHalfway()
    ensures VisiblePrefix(0.5, 6) == [0, 1, 2, 3]
    ensures AnimationProgress(0.5, 6, 3) == 0.6
    ensures AnimationProgress(0.5, 6, 4) == 0.0
    ensures StickySlideStyle(0.5, 6, 4).opacity == 0.0
  {
    assert LastVisible(0.5, 6) == 3;
    var s := VisiblePrefix(0.5, 6);
    assert |s| == 4 && s[0] == 0 && s[1] == 1 && s[2] == 2 && s[3] == 3;
  }

  // ---------------------------------------------------------------------------
  // Component state
  // ---------------------------------------------------------------------------

  /** The mounted showcase: its slide count is fixed by the data, progress and the visible
      list are its state. */
  class FeaturesSection {
    const sectionCount: int
    var scrollProgress: real
    var visibleSections: seq<int>

    /** Progress stays in [0, 1]; the visible list is either the reset state or exactly
        the prefix that the current progress selects. */
    ghost predicate Valid()
      reads this
    {
      2 <= sectionCount &&
      0.0 <= scrollProgress <= 1.0 &&
      ((scrollProgress == 0.0 && visibleSections == []) ||
       visibleSections == VisiblePrefix(scrollProgress, sectionCount))
    }

    constructor (slideCount: int)
      requires 2 <= slideCount
      ensures Valid()
      ensures sectionCount == slideCount && scrollProgress == 0.0 && visibleSections == []
    {
      sectionCount := slideCount;
      scrollProgress := 0.0;
      visibleSections := [];
    }

    /** One run of the scroll handler. `containerTop` is the sticky container's top edge,
        `sectionTop` the enclosing section's top edge, or None when there is no enclosing
        section. */
    method HandleScroll(containerTop: real, sectionTop: Option<real>, viewportHeight: real)
      requires Valid() && 0.0 < viewportHeight
      modifies this
      ensures Valid()
      ensures containerTop > 0.0 ==> scrollProgress == 0.0 && visibleSections == []
      ensures containerTop <= 0.0 && sectionTop.Some? ==>
        scrollProgress == ScrollProgress(sectionTop.value, sectionCount, viewportHeight) &&
        visibleSections == VisiblePrefix(scrollProgress, sectionCount)
      ensures containerTop <= 0.0 && sectionTop.None? ==>
        scrollProgress == old(scrollProgress) && visibleSections == old(visibleSections)
    {
      if containerTop <= 0.0 {
        if sectionTop.Some? {
          var progress := ScrollProgress(sectionTop.value, sectionCount, viewportHeight);
          scrollProgress := progress;
          var newVisibleSections := BuildVisibleSections(progress, sectionCount);
          visibleSections := newVisibleSections;
        }
      } else {
        scrollProgress := 0.0;
        visibleSections := [];
      }
    }

    /** The style the render gives slide `index` from the current state. */
    function RenderSection(index: int): (s: SlideStyle)
      reads this
      requires Valid() && 0 <= index < sectionCount
      ensures index !in visibleSections ==> s.opacity == 0.0 && s.translateY == HiddenOffset && s.scale == HiddenScale
      ensures index in visibleSections ==> s.opacity == AnimationProgress(scrollProgress, sectionCount, index)
      ensures s.opacity > 0.0 ==> index <= LastVisible(scrollProgress, sectionCount)
      ensures s.delayMs == index * DelayStep
    {
      SlideStyleOf(scrollProgress, sectionCount, index, index in visibleSections)
    }
  }
}
