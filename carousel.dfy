/** Model of the 3D review carousel: an active-card index that wraps around the card
    list, a hover flag that gates the autoplay timer, and the pure classifier that gives
    every card one of five style tiers from its offset to the active card. */
module Carousel3D {

  /** Viewports narrower than this many pixels use the mobile layout. */
  const MobileBreakpoint: int := 768

  /** The five branches of the style classifier. */
  datatype Tier = Current | Next | Previous | Background | Hidden

  /** The numbers behind a card's inline style: translations in px, rotation in degrees.
      The mobile transform has no rotateY term; it is recorded as 0 degrees. */
  datatype CardStyle = CardStyle(
    tier: Tier,
    translateX: int,
    translateZ: int,
    rotateY: int,
    scale: real,
    zIndex: int,
    opacity: real)

  // ---------------------------------------------------------------------------
  // Index arithmetic
  // ---------------------------------------------------------------------------

  /** The index after one step forward (the "next" button and the autoplay tick). */
  function NextIndex(i: int, n: int): (r: int)
    requires 1 <= n && 0 <= i < n
    ensures 0 <= r < n
    ensures r == if i == n - 1 then 0 else i + 1
  {
    (i + 1) % n
  }

  /** The index after one step back (the "previous" button). */
  function PrevIndex(i: int, n: int): (r: int)
    requires 1 <= n && 0 <= i < n
    ensures 0 <= r < n
    ensures r == if i == 0 then n - 1 else i - 1
  {
    (i - 1 + n) % n
  }

  /** Stepping back undoes stepping forward, and the other way round. */
  lemma PrevUndoesNext(i: int, n: int)
    requires 1 <= n && 0 <= i < n
    ensures PrevIndex(NextIndex(i, n), n) == i
    ensures NextIndex(PrevIndex(i, n), n) == i
  {
  }

  /** The index reached from `i` after `k` forward steps. */
  function Advance(i: int, k: nat, n: int): (r: int)
    requires 1 <= n && 0 <= i < n
    ensures 0 <= r < n
    decreases k
  {
    if k == 0 then i else NextIndex(Advance(i, k - 1, n), n)
  }

  /** Within one lap, `k` forward steps add `k` and wrap at most once. */
  lemma {:induction false} AdvanceWithinLap(i: int, k: nat, n: int)
    requires 1 <= n && 0 <= i < n && k <= n
    ensures Advance(i, k, n) == if i + k < n then i + k else i + k - n
  {
    if k > 0 {
      AdvanceWithinLap(i, k - 1, n);
    }
  }

  /** `n` forward steps on `n` cards come back to the starting card. */
  lemma FullLapReturns(i: int, n: int)
    requires 1 <= n && 0 <= i < n
    ensures Advance(i, n, n) == i
  {
    AdvanceWithinLap(i, n, n);
  }

  /** `k` forward steps are `k` added modulo the card count. */
  lemma {:induction false} AdvanceIsModularSum(i: int, k: nat, n: int)
    requires 1 <= n && 0 <= i < n
    ensures Advance(i, k, n) == (i + k) % n
  {
    if k == 0 {
      ModOfSmall(i, n);
    } else {
      AdvanceIsModularSum(i, k - 1, n);
      ModStep(i + k - 1, n);
    }
  }

  /** Adding one to a number moves its remainder one step round the ring. */
  lemma ModStep(a: int, n: int)
    requires 1 <= n
    ensures (a + 1) % n == if a % n == n - 1 then 0 else a % n + 1
  {
    var q, r := a / n, a % n;
    assert a == q * n + r;
    if r == n - 1 {
      assert a + 1 == (q + 1) * n + 0;
      ModOfMultiple(a + 1, n, q + 1, 0);
    } else {
      ModOfMultiple(a + 1, n, q, r + 1);
    }
  }

  lemma ModOfSmall(x: int, n: int)
    requires 0 <= x < n
    ensures x % n == x
  {
    ModOfMultiple(x, n, 0, x);
  }

  /** The remainder is fixed by any quotient/remainder split of `x`. */
  lemma ModOfMultiple(x: int, n: int, q: int, r: int)
    requires 1 <= n && 0 <= r < n && x == q * n + r
    ensures x % n == r
  {
    var q', r' := x / n, x % n;
    assert x == q' * n + r';
    var d := q - q';
    assert d * n == r' - r;
    assert (-d) * n == r - r';
    if d >= 1 {
      MulAtLeast(d, n);
    } else if d <= -1 {
      MulAtLeast(-d, n);
    }
  }

  lemma MulAtLeast(a: int, n: int)
    requires a >= 1 && n >= 1
    ensures a * n >= n
  {
  }

  // ---------------------------------------------------------------------------
  // Style classifier
  // ---------------------------------------------------------------------------

  /** The if/else chain of the classifier over `diff = index - currentIndex`, in its
      order: the first test that holds picks the tier. The desktop layout alone also
      places the card two steps back in the background. */
  function Classify(isMobile: bool, n: int, diff: int): (t: Tier)
    ensures t == Current <==> diff == 0
  {
    if diff == 0 then Current
    else if diff == 1 || diff == -(n - 1) then Next
    else if diff == -1 || diff == n - 1 then Previous
    else if diff == 2 || diff == -(n - 2) then Background
    else if !isMobile && (diff == -2 || diff == n - 2) then Background
    else Hidden
  }

  /** The fixed transform, stacking order, opacity and scale of each tier, per layout. */
  function TierStyle(isMobile: bool, t: Tier): (s: CardStyle)
    ensures s.tier == t
    ensures s.zIndex in {1, 5, 8, 10}
    ensures 0.0 <= s.opacity <= 1.0
    ensures s.zIndex == 10 <==> t == Current
    ensures s.opacity == 1.0 <==> t == Current
    ensures t != Current ==> s.zIndex <= 8 && s.opacity < 1.0
    ensures t == Hidden ==> s.opacity == 0.0 && s.zIndex == 1
  {
    if isMobile then
      match t
      case Current => CardStyle(t, 0, 0, 0, 1.0, 10, 1.0)
      case Next => CardStyle(t, 200, -50, 0, 0.8, 8, 0.7)
      case Previous => CardStyle(t, -200, -50, 0, 0.8, 8, 0.7)
      case Background => CardStyle(t, 0, -100, 0, 0.7, 5, 0.3)
      case Hidden => CardStyle(t, 0, -200, 0, 0.6, 1, 0.0)
    else
      match t
      case Current => CardStyle(t, 0, 0, 0, 1.0, 10, 1.0)
      case Next => CardStyle(t, 350, -100, -15, 0.9, 8, 0.8)
      case Previous => CardStyle(t, -350, -100, 15, 0.9, 8, 0.8)
      case Background => CardStyle(t, 0, -200, 0, 0.95, 5, 0.3)
      case Hidden => CardStyle(t, 0, -400, 0, 0.8, 1, 0.0)
  }

  /** The style of card `index` while card `currentIndex` of `n` is active. */
  function GetCardStyle(isMobile: bool, n: int, currentIndex: int, index: int): (s: CardStyle)
    ensures s.zIndex in {1, 5, 8, 10}
    ensures 0.0 <= s.opacity <= 1.0
    ensures s.zIndex == 10 <==> index == currentIndex
    ensures s.opacity == 1.0 <==> index == currentIndex
    ensures index != currentIndex ==> s.zIndex <= 8 && s.opacity < 1.0
    ensures s.tier == Hidden ==> s.opacity == 0.0
  {
    TierStyle(isMobile, Classify(isMobile, n, index - currentIndex))
  }

  /** The forward distance from the active card to card `index`, going round the ring. */
  function CyclicOffset(n: int, currentIndex: int, index: int): (d: int)
    requires 1 <= n && 0 <= currentIndex < n && 0 <= index < n
    ensures 0 <= d < n
    ensures d == if currentIndex <= index then index - currentIndex else index - currentIndex + n
  {
    var diff := index - currentIndex;
    if diff >= 0 then
      ModOfSmall(diff, n);
      diff % n
    else
      ModOfMultiple(diff, n, -1, diff + n);
      diff % n
  }

  /** Reference classifier stated on the cyclic offset `d` in [0, n): the same priority
      order, with "next" before "previous" before "background". */
  function TierOfOffset(isMobile: bool, n: int, d: int): Tier
  {
    if d == 0 then Current
    else if d == 1 then Next
    else if d == n - 1 then Previous
    else if d == 2 then Background
    else if !isMobile && d == n - 2 then Background
    else Hidden
  }

  /** The tier depends only on the cyclic offset of the card, not on where the ring is cut. */
  lemma TierDependsOnlyOnOffset(isMobile: bool, n: int, currentIndex: int, index: int)
    requires 1 <= n && 0 <= currentIndex < n && 0 <= index < n
    ensures GetCardStyle(isMobile, n, currentIndex, index).tier
         == TierOfOffset(isMobile, n, CyclicOffset(n, currentIndex, index))
  {
    var d := CyclicOffset(n, currentIndex, index);
    var diff := index - currentIndex;
    assert d == diff || d == diff + n;
  }

  /** Moving the active card and a given card forward together leaves that card's style
      unchanged: the whole pattern turns with the ring. */
  lemma StyleTurnsWithRing(isMobile: bool, n: int, currentIndex: int, index: int)
    requires 1 <= n && 0 <= currentIndex < n && 0 <= index < n
    ensures GetCardStyle(isMobile, n, NextIndex(currentIndex, n), NextIndex(index, n))
         == GetCardStyle(isMobile, n, currentIndex, index)
  {
    var c', i' := NextIndex(currentIndex, n), NextIndex(index, n);
    assert CyclicOffset(n, c', i') == CyclicOffset(n, currentIndex, index);
    TierDependsOnlyOnOffset(isMobile, n, currentIndex, index);
    TierDependsOnlyOnOffset(isMobile, n, c', i');
  }

  /** With two cards the other card is "next", although it is also one step back. */
  lemma TwoCardsOtherIsNext(isMobile: bool, currentIndex: int, index: int)
    requires 0 <= currentIndex < 2 && 0 <= index < 2 && index != currentIndex
    ensures GetCardStyle(isMobile, 2, currentIndex, index).tier == Next
  {
  }

  /** With three cards the card two steps ahead is "previous", not "background". */
  lemma ThreeCardsPreviousBeatsBackground(isMobile: bool, currentIndex: int)
    requires 0 <= currentIndex < 3
    ensures GetCardStyle(isMobile, 3, currentIndex, (currentIndex + 2) % 3).tier == Previous
  {
  }

  /** On desktop the next and previous cards are mirror images of each other. */
  lemma DesktopNeighboursMirror()
    ensures TierStyle(false, Next).translateX == -TierStyle(false, Previous).translateX == 350
    ensures TierStyle(false, Next).rotateY == -TierStyle(false, Previous).rotateY == -15
    ensures TierStyle(false, Next).translateZ == TierStyle(false, Previous).translateZ
    ensures TierStyle(false, Next).scale == TierStyle(false, Previous).scale
    ensures TierStyle(false, Next).zIndex == TierStyle(false, Previous).zIndex
    ensures TierStyle(false, Next).opacity == TierStyle(false, Previous).opacity
  {
  }

  /** From five cards on, the card two steps back is in the background on desktop but
      hidden on mobile, whose chain has no branch for it. */
  lemma SecondPreviousDiffersByLayout(n: int, currentIndex: int)
    requires 5 <= n && 0 <= currentIndex < n
    ensures GetCardStyle(false, n, currentIndex, (currentIndex + n - 2) % n).tier == Background
    ensures GetCardStyle(true, n, currentIndex, (currentIndex + n - 2) % n).tier == Hidden
  {
    var index := (currentIndex + n - 2) % n;
    if currentIndex >= 2 {
      ModOfMultiple(currentIndex + n - 2, n, 1, currentIndex - 2);
    } else {
      ModOfSmall(currentIndex + n - 2, n);
    }
    TierDependsOnlyOnOffset(false, n, currentIndex, index);
    TierDependsOnlyOnOffset(true, n, currentIndex, index);
  }

  // ---------------------------------------------------------------------------
  // Component state
  // ---------------------------------------------------------------------------

  /** One mounted carousel: the card count and autoplay setting come from its props,
      the active index, hover flag and layout flag are its state. */
  class Carousel {
    const cardCount: nat
    const autoRotate: bool
    var currentIndex: int
    var isHovered: bool
    var isMobile: bool

    ghost predicate Valid()
      reads this
    {
      1 <= cardCount && 0 <= currentIndex < cardCount
    }

    /** Mounting: the first card is active, nothing is hovered, desktop layout until the
        width is first read. */
    constructor (cards: nat, autoplay: bool)
      requires 1 <= cards
      ensures Valid()
      ensures cardCount == cards && autoRotate == autoplay
      ensures currentIndex == 0 && !isHovered && !isMobile
    {
      cardCount := cards;
      autoRotate := autoplay;
      currentIndex := 0;
      isHovered := false;
      isMobile := false;
    }

    /** Re-reading the window width picks the layout. */
    method CheckMobile(windowWidth: int)
      modifies this`isMobile
      ensures isMobile <==> windowWidth < MobileBreakpoint
    {
      isMobile := windowWidth < MobileBreakpoint;
    }

    method HandleNext()
      requires Valid()
      modifies this`currentIndex
      ensures Valid()
      ensures currentIndex == NextIndex(old(currentIndex), cardCount)
    {
      currentIndex := (currentIndex + 1) % cardCount;
    }

    method HandlePrev()
      requires Valid()
      modifies this`currentIndex
      ensures Valid()
      ensures currentIndex == PrevIndex(old(currentIndex), cardCount)
    {
      currentIndex := (currentIndex - 1 + cardCount) % cardCount;
    }

    /** A click on a card or on its indicator dot makes that card active. */
    method HandleCardClick(index: int)
      requires Valid() && 0 <= index < cardCount
      modifies this`currentIndex
      ensures Valid()
      ensures currentIndex == index
    {
      currentIndex := index;
    }

    method MouseEnter()
      modifies this`isHovered
      ensures isHovered
    {
      isHovered := true;
    }

    method MouseLeave()
      modifies this`isHovered
      ensures !isHovered
    {
      isHovered := false;
    }

    /** The autoplay interval is registered only while autoplay is on and the pointer is
        outside the carousel. */
    predicate IntervalActive()
      reads this
    {
      autoRotate && !isHovered
    }

    /** One firing of the autoplay timer. Without a registered interval nothing fires,
        so the index cannot move on its own while hovered or with autoplay off. */
    method AutoplayTick()
      requires Valid()
      modifies this`currentIndex
      ensures Valid()
      ensures old(IntervalActive()) ==> currentIndex == NextIndex(old(currentIndex), cardCount)
      ensures !old(IntervalActive()) ==> currentIndex == old(currentIndex)
    {
      if IntervalActive() {
        currentIndex := (currentIndex + 1) % cardCount;
      }
    }

    /** The styles of all cards, in card order, as the render computes them. Exactly the
        active card is on top. */
    method CardStyles() returns (styles: seq<CardStyle>)
      requires Valid()
      ensures |styles| == cardCount
      ensures forall i :: 0 <= i < cardCount ==> styles[i] == GetCardStyle(isMobile, cardCount, currentIndex, i)
      ensures forall i :: 0 <= i < |styles| ==> (styles[i].zIndex == 10 <==> i == currentIndex)
    {
      styles := [];
      var i := 0;
      while i < cardCount
        invariant 0 <= i <= cardCount
        invariant |styles| == i
        invariant forall j :: 0 <= j < i ==> styles[j] == GetCardStyle(isMobile, cardCount, currentIndex, j)
      {
        styles := styles + [GetCardStyle(isMobile, cardCount, currentIndex, i)];
        i := i + 1;
      }
    }
  }

  /** Four cards with autoplay and no interaction: three ticks visit cards 1, 2 and 3. */
  lemma FourCardsThreeTicks()
    ensures Advance(0, 1, 4) == 1 && Advance(0, 2, 4) == 2 && Advance(0, 3, 4) == 3
  {
  }
}
