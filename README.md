# Landing-page carousel and scroll showcase, modelled in Dafny

The landing page for the browser product has two pieces of behaviour beyond static markup.
This project models both and proves properties about them.

- **The 3D review carousel** (`carousel.dfy`, module `Carousel3D`). It keeps an
  active-card index in `[0, n)`. The next and previous buttons move the index forward
  or back with wrap-around. A click on a card or on its indicator dot sets the index
  directly. An autoplay interval advances the index, but it exists only while autoplay
  is on and the pointer is outside the carousel. Every card gets one of five style tiers
  (current, next, previous, background, hidden) from its offset to the active card, in a
  mobile and a desktop variant. Each tier has fixed translate, rotate, scale, z-index and
  opacity values. The component is the class `Carousel`. The classifier is the pure
  function `GetCardStyle`, which composes the priority chain `Classify` with the constant
  table `TierStyle`.
- **The scroll-driven feature showcase** (`features.dfy`, module `Features`). A sticky
  container is followed inside its section by a spacer of `(N-1)` viewport heights.
  When the container's top reaches the top of the viewport, the scroll handler computes:
  - progress: the distance scrolled past the section top over `(N-1)` viewport heights,
    clamped to `[0, 1]`;
  - the visible slides: `0..min(floor(progress*N), N-1)`, built by a push loop.

  Above the sticky region, both are reset. Each slide's reveal is
  `min(max(0, progress*N*1.2 - index), 1)`. A visible slide takes its opacity, vertical
  offset and scale from its reveal. A slide that is not visible stays transparent, 60 px
  low and at 90% scale. The component is the class `FeaturesSection`. The per-slide
  arithmetic is the pure function `SlideStyleOf`.

All arithmetic is over Dafny `int` and `real`. `.Floor` stands in for `Math.floor`.
Geometry reads (`getBoundingClientRect`, `window.innerHeight`, `window.innerWidth`) are
parameters. The timer is an abstract tick event.

Behaviour of the code worth stating:
- The autoplay effect depends on `autoRotate`, `rotateInterval`, `cards.length` and
  `isHovered`, not on `currentIndex` (`src/components/ui/carousel-3d.tsx:51`). So a
  manual step does not restart the interval. The model's `HandleNext`, `HandlePrev` and
  `HandleCardClick` leave the timer alone.
- Slide 0 is not exempt from the reveal. At progress 0 it is listed as visible but fully
  transparent (`FirstSlideTransparentAtRest`).
- Visibility uses `floor(progress*N)`, without the 1.2 stagger factor. With six slides at
  half progress, slides 0 to 3 are visible. Slide 3 is 60% through its reveal and slide 4
  has not started (`SixSlidesHalfway`).
- The progress divisor is `(N-1)` viewport heights (`src/components/Features.tsx:109`),
  not a measured container or section height.
- The carousel source has no drag, keyboard control, card flipping or callbacks.

## Model

| member | source | states |
|---|---|---|
| `Carousel3D.NextIndex` | src/components/ui/carousel-3d.tsx:135-137 | the next index stays in `[0, n)` and wraps from the last card to the first |
| `Carousel3D.PrevIndex` | src/components/ui/carousel-3d.tsx:139-141 | the previous index stays in `[0, n)` and wraps from the first card to the last |
| `Carousel3D.PrevUndoesNext` | src/components/ui/carousel-3d.tsx:135-141 | prev(next(i)) = i and next(prev(i)) = i |
| `Carousel3D.Advance` | src/components/ui/carousel-3d.tsx:136 | any number of forward steps keeps the index in `[0, n)` |
| `Carousel3D.AdvanceWithinLap` | src/components/ui/carousel-3d.tsx:135-137 | up to `n` forward steps add `k` to the index and wrap at most once |
| `Carousel3D.FullLapReturns` | src/components/ui/carousel-3d.tsx:136 | `n` forward steps on `n` cards return to the starting card |
| `Carousel3D.AdvanceIsModularSum` | src/components/ui/carousel-3d.tsx:46-48 | `k` autoplay ticks or next steps land on `(i + k) mod n` |
| `Carousel3D.FourCardsThreeTicks` | src/components/ui/carousel-3d.tsx:46-48 | with four cards, three ticks from card 0 visit cards 1, 2 and 3 |
| `Carousel3D.Classify` | src/components/ui/carousel-3d.tsx:53-126 | the priority chain over `diff`: the tier is "current" exactly when `diff` is 0 |
| `Carousel3D.TierStyle` | src/components/ui/carousel-3d.tsx:60-125 | every tier has zIndex in {1, 5, 8, 10} and opacity in `[0, 1]`; only "current" has zIndex 10 and opacity 1; the rest have zIndex at most 8 and opacity below 1; "hidden" has opacity 0 and zIndex 1 |
| `Carousel3D.GetCardStyle` | src/components/ui/carousel-3d.tsx:53-132 | in both layouts, the card at the active index, and no other, has zIndex 10 and opacity 1; every other card has zIndex at most 8 and opacity below 1; hidden cards have opacity 0 |
| `Carousel3D.CyclicOffset` | src/components/ui/carousel-3d.tsx:54 | the forward distance round the ring from the active card, in `[0, n)` |
| `Carousel3D.TierDependsOnlyOnOffset` | src/components/ui/carousel-3d.tsx:68-119 | the tier equals the reference classification of the cyclic offset: next before previous before background |
| `Carousel3D.StyleTurnsWithRing` | src/components/ui/carousel-3d.tsx:53-137 | advancing the active card and a card together leaves that card's style unchanged |
| `Carousel3D.TwoCardsOtherIsNext` | src/components/ui/carousel-3d.tsx:68-79 | with two cards the inactive card is "next", not "previous" |
| `Carousel3D.ThreeCardsPreviousBeatsBackground` | src/components/ui/carousel-3d.tsx:74-85 | with three cards the card two ahead is "previous", not "background" |
| `Carousel3D.DesktopNeighboursMirror` | src/components/ui/carousel-3d.tsx:100-109 | on desktop, next and previous are mirror images: translateX ±350 and rotateY ∓15, with the same depth, scale, zIndex and opacity |
| `Carousel3D.SecondPreviousDiffersByLayout` | src/components/ui/carousel-3d.tsx:80-125 | from five cards on, the card two back is "background" on desktop but "hidden" on mobile |
| `Carousel3D.Carousel.constructor` | src/components/ui/carousel-3d.tsx:23-30 | mount: index 0, not hovered, desktop layout, the given card count and autoplay flag |
| `Carousel3D.Carousel.CheckMobile` | src/components/ui/carousel-3d.tsx:33-35 | the layout is mobile exactly when the window is narrower than 768 px |
| `Carousel3D.Carousel.HandleNext` | src/components/ui/carousel-3d.tsx:135-137 | the index becomes next(index); the index invariant holds and nothing else changes |
| `Carousel3D.Carousel.HandlePrev` | src/components/ui/carousel-3d.tsx:139-141 | the index becomes prev(index); the index invariant holds and nothing else changes |
| `Carousel3D.Carousel.HandleCardClick` | src/components/ui/carousel-3d.tsx:143-145 | a card or dot click sets the index to the clicked card; hover and layout flags are untouched |
| `Carousel3D.Carousel.MouseEnter` | src/components/ui/carousel-3d.tsx:152 | pointer entry sets the hover flag and changes nothing else |
| `Carousel3D.Carousel.MouseLeave` | src/components/ui/carousel-3d.tsx:153 | pointer exit clears the hover flag and changes nothing else |
| `Carousel3D.Carousel.AutoplayTick` | src/components/ui/carousel-3d.tsx:43-51 | a tick acts exactly like next when autoplay is on and the carousel is not hovered; otherwise the index does not move |
| `Carousel3D.Carousel.CardStyles` | src/components/ui/carousel-3d.tsx:160-161 | the rendered styles are one per card, in card order, and exactly the active card is on top |
| `Features.ScrollDistance` | src/components/Features.tsx:109 | the scroll distance is positive for at least two slides and equals the spacer height of `(N-1)*100vh` |
| `Features.ScrollProgress` | src/components/Features.tsx:108-115 | progress is in `[0, 1]`; it is 0 exactly at the section top; it is 1 exactly once the full distance is scrolled; below 1 it is the scrolled fraction |
| `Features.ProgressMonotone` | src/components/Features.tsx:112-113 | scrolling further into the section never lowers progress |
| `Features.LastVisible` | src/components/Features.tsx:117-122 | the last visible slide is a real slide, already reached by `progress*N`, and is the last one reached unless capped |
| `Features.VisiblePrefix` | src/components/Features.tsx:118-124 | the visible list starts at 0, is strictly increasing, holds only indices below `N`, and holds exactly `0..LastVisible` |
| `Features.BuildVisibleSections` | src/components/Features.tsx:117-126 | the push loop builds exactly the visible prefix |
| `Features.VisibilityMonotone` | src/components/Features.tsx:119-124 | a larger progress keeps every slide that was visible |
| `Features.AnimationProgress` | src/components/Features.tsx:146-147 | a slide's reveal is in `[0, 1]`; it is 0 until `progress*N*1.2` reaches the index, 1 from one past it, and `progress*N*1.2 - index` in between |
| `Features.AnimationProgressMonotone` | src/components/Features.tsx:146-147 | a slide's reveal does not decrease as progress grows |
| `Features.ClampMonotone` | src/components/Features.tsx:146-147 | the clamp to `[0, 1]` keeps the order of its arguments |
| `Features.LaterSlidesLag` | src/components/Features.tsx:146-147 | a later slide is never further through its reveal than an earlier one |
| `Features.SlideStyleOf` | src/components/Features.tsx:144-155 | a hidden slide has opacity 0, offset 60 and scale 0.9; a visible slide has opacity equal to its reveal; in both cases offset = (1 - opacity)*60 in `[0, 60]` and scale = 0.9 + 0.1*opacity in `[0.9, 1]`; delay is index*200 ms, zIndex is 10 + index, and the glow opacity is 0.3 times the reveal |
| `Features.LaterSlidesStartLaterAndStackHigher` | src/components/Features.tsx:155-175 | the transition delay and the stacking order strictly increase with slide index |
| `Features.StickyOpacityMonotone` | src/components/Features.tsx:118-152 | in sticky mode, scrolling further never makes a slide fainter |
| `Features.AllRevealedAtEnd` | src/components/Features.tsx:113-152 | at progress 1 every slide is visible with opacity 1, offset 0 and scale 1 |
| `Features.FirstSlideTransparentAtRest` | src/components/Features.tsx:119-152 | at progress 0 slide 0 is visible but has opacity 0 |
| `Features.SixSlidesHalfway` | src/components/Features.tsx:118-147 | six slides at progress 0.5: slides 0 to 3 are visible, slide 3's reveal is 0.6, slide 4's is 0 |
| `Features.FeaturesSection.constructor` | src/components/Features.tsx:36-37 | mount: progress 0 and no visible slides |
| `Features.FeaturesSection.HandleScroll` | src/components/Features.tsx:92-133 | below the viewport top, progress and visible list reset to 0 and empty; in sticky mode they become the clamped progress and its visible prefix; with no enclosing section nothing changes; the invariant is kept |
| `Features.FeaturesSection.RenderSection` | src/components/Features.tsx:144-155 | a slide outside the visible list renders transparent, 60 px low at 0.9 scale; a listed slide shows its reveal; a slide with any opacity is within the visible prefix |

## Left out

- Markup, CSS class strings, gradients, layout-only ternaries (alignment and padding by
  content position) and the motion/icon/image libraries. These are presentation only.
- Resize and scroll listener registration, `requestAnimationFrame` batching,
  `setInterval`/`clearInterval` timing and the `rotateInterval` period. The timer is the
  `AutoplayTick` event. The window width and geometry values are method parameters.
- The early return when the container ref is unattached (`src/components/Features.tsx:93`
  and `:96`). That path does nothing, so the model does not call the handler there.
- The `isScrolling` throttle. The ref is never set to true, so it never blocks a call.
- Carousel.constructor: the `cards` and `autoRotate` props are fixed at mount (`const`
  fields). The source's autoplay effect re-runs if they change
  (`src/components/ui/carousel-3d.tsx:51`), but its only caller passes a constant list and
  `autoRotate={true}` (`src/components/Reviews.tsx:96-100`).
- Carousel.constructor: an empty card list is excluded (`1 <= cards`). In the source,
  `% 0` would make the index `NaN`, and an int cannot represent `NaN`.
- FeaturesSection.constructor: fewer than two slides are excluded (`2 <= slideCount`).
  With one slide the source divides by zero and gets `Infinity` or `NaN`, which reals
  cannot represent. The source's slide list has four entries.
- FeaturesSection.HandleScroll: a zero viewport height is excluded (`0.0 < viewportHeight`),
  because it would also divide by zero.
- IEEE floating-point rounding is not modelled. The arithmetic is exact over `real`.
- The glow layers' delays of `delay + 200` and `delay + 300` ms are not modelled. The
  glow opacity, `0.3` times the reveal, is modelled in `SlideStyleOf`.
- The icon and text layers of each slide are not modelled: the large icon's opacity
  `0.4*reveal` and scale `0.8 + 0.2*reveal` (`src/components/Features.tsx:254-255`), the
  content block's offset of 0 or 40 px (`:307`), and the small icon's, title's and
  description's opacity and offsets (`:321-322`, `:341-342`, `:367-368`). They are more
  linear functions of the same reveal, with no behaviour beyond it.
- The CSS `transform` string that `getCardStyle` assembles is not built. The model keeps
  its numbers in `CardStyle`, with rotateY 0 standing for the mobile transform's missing
  rotation.
- Drag rotation, keyboard control, card flipping, radial trigonometric placement and the
  click/flip/rotate callbacks. The caller passes these props, but the carousel does not
  declare or implement them.
