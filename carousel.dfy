/**
 * The testimonial carousel of the reviews section (src/components/Testemonials.jsx).
 *
 * The widget holds an index into a fixed list of reviews and an autoplay flag.
 * While autoplay is on, a periodic timer moves to the next review; the arrow
 * buttons and the dots move the index by hand and switch autoplay off for good.
 *
 * The behaviour is stated twice: once on values (CarouselState, Step and Run,
 * over sequences of events) and once as the class TestimonialsCarousel whose
 * methods update the two fields in place and are proved against Step.
 */
module Carousel {
  import opened Wrappers

  // ---------------------------------------------------------------------------
  // Data
  // ---------------------------------------------------------------------------

  /** The brand icons a review can carry. */
  datatype Icon = GoogleIcon | InstagramIcon

  /** An entry of the `sourceIcons` table: icon, colour class and the label shown after "via". */
  datatype SourceBrand = SourceBrand(icon: Icon, color: string, name: string)

  /** One customer review. `source` is the key into the brand table. */
  datatype Testimonial = Testimonial(
    text: string,
    author: string,
    role: string,
    rating: nat,
    source: string,
    location: string,
    avatar: string)

  /** The `sourceIcons` table: review source key to brand. */
  function SourceIcons(): map<string, SourceBrand>
  {
    map[
      "google" := SourceBrand(GoogleIcon, "text-red-500", "Google Reviews"),
      "instagram" := SourceBrand(InstagramIcon, "text-pink-500", "Instagram")
    ]
  }

  /** The three reviews the widget is built with. */
  function Testimonials(): seq<Testimonial>
  {
    [AnaReview(), MarkoReview(), SarahReview()]
  }

  function AnaReview(): Testimonial
  {
    Testimonial(
      "Best brunch in Novi Sad! The avocado toast is incredible "
        + "and the coffee is perfectly balanced. The atmosphere is so "
        + "cozy and perfect for work or catching up with friends.",
      "Ana Petrović", "Regular Customer", 5, "google", "Novi Sad",
      "https://i.pinimg.com/736x/27/33/"
        + "76/273376744ea6b7e3231a9d5a24396786.jpg")
  }

  function MarkoReview(): Testimonial
  {
    Testimonial(
      "Cozy interior, friendly staff, 10/10 coffee! I've tried "
        + "their matcha latte and it's the best I've had in Serbia. "
        + "The pancakes are fluffy perfection. Highly recommend!",
      "Marko Jovanović", "Coffee Enthusiast", 5, "instagram", "Belgrade",
      "https://images.unsplash.com/photo-1507003211169-0a1dd7228f2d"
        + "?auto=format&fit=crop&w=150&q=80")
  }

  function SarahReview(): Testimonial
  {
    Testimonial(
      "Perfect spot for digital nomads! Fast WiFi, comfortable "
        + "seating, and amazing specialty coffee. The granola bowl is "
        + "my go-to breakfast. Kombinat has become my second office!",
      "Sarah Chen", "Digital Nomad", 5, "google", "Traveling",
      "https://i.pinimg.com/736x/69/4a/6c/"
        + "694a6ca11827273806b8a83ed57c7d65.jpg")
  }

  // ---------------------------------------------------------------------------
  // Rendering of the displayed review
  // ---------------------------------------------------------------------------

  /**
   * `sourceIcons[t.source]`: the brand of a review, or None when the table has
   * no entry for its key (the page would then fail while rendering).
   */
  function Brand(t: Testimonial): (r: Option<SourceBrand>)
    ensures r.Some? <==> t.source == "google" || t.source == "instagram"
    ensures r.Some? ==> (r.value.icon == GoogleIcon <==> t.source == "google")
    ensures r.Some? ==> r.value.name == if t.source == "google" then "Google Reviews" else "Instagram"
  {
    if t.source in SourceIcons() then Some(SourceIcons()[t.source]) else None
  }

  /** The keys of the star marks drawn for a review: one mark per rating point, keyed 0, 1, ... */
  function StarKeys(t: Testimonial): (r: seq<nat>)
    ensures |r| == t.rating
    ensures forall i :: 0 <= i < |r| ==> r[i] == i
  {
    seq(t.rating, i => i)
  }

  /** Every built-in review has a rating of one to five stars and a source the brand table knows. */
  lemma FixedTestimonialsRender()
    ensures |Testimonials()| == 3
    ensures forall i :: 0 <= i < |Testimonials()| ==>
              1 <= |StarKeys(Testimonials()[i])| <= 5 && Brand(Testimonials()[i]).Some?
  {
  }

  // ---------------------------------------------------------------------------
  // Index arithmetic
  // ---------------------------------------------------------------------------

  /** `(prev + 1) % n`: the next review, wrapping from the last to the first. */
  function Advance(i: nat, n: nat): (r: nat)
    requires i < n
    ensures r < n
    ensures r == if i == n - 1 then 0 else i + 1
  {
    (i + 1) % n
  }

  /** `(prev - 1 + n) % n`: the previous review, wrapping from the first to the last. */
  function Retreat(i: nat, n: nat): (r: nat)
    requires i < n
    ensures r < n
    ensures r == if i == 0 then n - 1 else i - 1
  {
    (i - 1 + n) % n
  }

  /** Going back one review and then forward one (or the other way round) is the identity. */
  lemma AdvanceRetreatInverse(i: nat, n: nat)
    requires i < n
    ensures Advance(Retreat(i, n), n) == i
    ensures Retreat(Advance(i, n), n) == i
  {
  }

  /** The index after k advances from i. */
  function AdvanceTimes(i: nat, n: nat, k: nat): (r: nat)
    requires i < n
    ensures r < n
    decreases k
  {
    if k == 0 then i else AdvanceTimes(Advance(i, n), n, k - 1)
  }

  /** Multiplying by a positive n moves a non-zero factor at least n away from zero. */
  lemma MulAwayFromZero(d: int, n: int)
    requires 0 < n
    ensures d >= 1 ==> d * n >= n
    ensures d <= -1 ==> d * n <= -n
  {
    if d >= 1 {
      assert d * n == (d - 1) * n + n;
    } else if d <= -1 {
      assert d * n == -((-d - 1) * n) - n;
    }
  }

  /** The remainder is the unique r in [0, n) with x == q * n + r. */
  lemma ModUnique(x: int, q: int, r: int, n: int)
    requires 0 < n && 0 <= r < n && x == q * n + r
    ensures x % n == r
  {
    var q', r' := x / n, x % n;
    assert x == q' * n + r';
    assert (q - q') * n == r' - r;
    MulAwayFromZero(q - q', n);
  }

  /** Adding a multiple of n does not change the remainder. */
  lemma ModShift(x: int, k: int, n: int)
    requires 0 < n
    ensures (x + k * n) % n == x % n
  {
    assert x + k * n == (x / n + k) * n + x % n;
    ModUnique(x + k * n, x / n + k, x % n, n);
  }

  /** Reducing the left operand modulo n before adding does not change the sum's remainder. */
  lemma ModAddLeft(a: int, b: int, n: int)
    requires 0 < n
    ensures (a % n + b) % n == (a + b) % n
  {
    assert a + b == (a % n + b) + (a / n) * n;
    ModShift(a % n + b, a / n, n);
  }

  /** k advances from i land on `(i + k) % n`. */
  lemma {:induction false} AdvanceTimesMod(i: nat, n: nat, k: nat)
    requires i < n
    ensures AdvanceTimes(i, n, k) == (i + k) % n
    decreases k
  {
    if k == 0 {
      ModUnique(i, 0, i, n);
    } else {
      var j := Advance(i, n);
      assert j == (i + 1) % n;
      AdvanceTimesMod(j, n, k - 1);
      assert AdvanceTimes(i, n, k) == (j + (k - 1)) % n;
      ModAddLeft(i + 1, k - 1, n);
    }
  }

  /** n advances from any index come back to it. */
  lemma FullCycle(i: nat, n: nat)
    requires i < n
    ensures AdvanceTimes(i, n, n) == i
  {
    AdvanceTimesMod(i, n, n);
    ModShift(i, 1, n);
    ModUnique(i, 0, i, n);
  }

  // ---------------------------------------------------------------------------
  // The state machine on values
  // ---------------------------------------------------------------------------

  /** The widget's state: `currentIndex` and `isAutoPlaying`. */
  datatype CarouselState = CarouselState(index: nat, autoPlaying: bool)

  /** What can happen to the widget: the interval fires, an arrow is pressed, a dot is pressed. */
  datatype Event = TimerFired | NextPressed | PrevPressed | DotPressed(target: nat)

  /** The state on mount: the first review, autoplay on. */
  function Initial(): CarouselState
  {
    CarouselState(0, true)
  }

  /**
   * Whether an event can happen in a state of a widget with n reviews. The
   * interval is armed only while autoplay is on and is cleared when it goes
   * off, so the timer cannot fire then; a dot only ever targets an index of
   * the list it is drawn from.
   */
  predicate Enabled(s: CarouselState, e: Event, n: nat)
  {
    match e
    case TimerFired => s.autoPlaying
    case DotPressed(t) => t < n
    case NextPressed => true
    case PrevPressed => true
  }

  /** The effect of one event: the interval callback and the three handlers. */
  function Step(s: CarouselState, e: Event, n: nat): (r: CarouselState)
    requires s.index < n && Enabled(s, e, n)
    ensures r.index < n
    ensures r.autoPlaying <==> s.autoPlaying && e.TimerFired?
    ensures e.TimerFired? || e.NextPressed? ==> r.index == (s.index + 1) % n
    ensures e.PrevPressed? ==> r.index == (s.index + n - 1) % n
    ensures e.DotPressed? ==> r.index == e.target
  {
    match e
    case TimerFired => CarouselState(Advance(s.index, n), s.autoPlaying)
    case NextPressed => CarouselState(Advance(s.index, n), false)
    case PrevPressed => CarouselState(Retreat(s.index, n), false)
    case DotPressed(t) => CarouselState(t, false)
  }

  /** The state after a sequence of events, or None if one of them cannot happen when it comes. */
  function Run(s: CarouselState, es: seq<Event>, n: nat): (r: Option<CarouselState>)
    requires s.index < n
    ensures r.Some? ==> r.value.index < n
    decreases |es|
  {
    if es == [] then Some(s)
    else if !Enabled(s, es[0], n) then None
    else Run(Step(s, es[0], n), es[1..], n)
  }

  /** k timer firings in a row. */
  function Ticks(k: nat): (es: seq<Event>)
    ensures |es| == k
    ensures forall i :: 0 <= i < k ==> es[i] == TimerFired
  {
    seq(k, _ => TimerFired)
  }

  /**
   * After any run, autoplay is on exactly when it was on at the start and
   * every event was a timer firing: only a manual control switches it off,
   * and nothing switches it back on.
   */
  lemma {:induction false} RunAutoplay(s: CarouselState, es: seq<Event>, n: nat)
    requires s.index < n
    requires Run(s, es, n).Some?
    ensures Run(s, es, n).value.autoPlaying <==>
              s.autoPlaying && forall i :: 0 <= i < |es| ==> es[i].TimerFired?
    decreases |es|
  {
    if es != [] {
      var s' := Step(s, es[0], n);
      RunAutoplay(s', es[1..], n);
      assert forall i :: 1 <= i < |es| ==> es[i] == es[1..][i - 1];
    }
  }

  /** Once autoplay is off it stays off, whatever happens afterwards. */
  lemma AutoplayNeverResumes(s: CarouselState, es: seq<Event>, n: nat)
    requires s.index < n && !s.autoPlaying
    ensures Run(s, es, n).Some? ==> !Run(s, es, n).value.autoPlaying
  {
    if Run(s, es, n).Some? {
      RunAutoplay(s, es, n);
    }
  }

  /** While autoplay is on, k timer firings move the index as k advances do and leave autoplay on. */
  lemma {:induction false} TicksAdvanceTimes(s: CarouselState, n: nat, k: nat)
    requires s.index < n && s.autoPlaying
    ensures Run(s, Ticks(k), n) == Some(CarouselState(AdvanceTimes(s.index, n, k), true))
    decreases k
  {
    if k > 0 {
      var s' := Step(s, TimerFired, n);
      assert Ticks(k)[1..] == Ticks(k - 1);
      TicksAdvanceTimes(s', n, k - 1);
    }
  }

  /** While autoplay is on, k timer firings lead from index i to `(i + k) % n`, autoplay still on. */
  lemma TicksAdvance(s: CarouselState, n: nat, k: nat)
    requires s.index < n && s.autoPlaying
    ensures Run(s, Ticks(k), n) == Some(CarouselState((s.index + k) % n, true))
  {
    TicksAdvanceTimes(s, n, k);
    AdvanceTimesMod(s.index, n, k);
  }

  /** n timer firings from any state with autoplay on come back to that state. */
  lemma TicksFullCycle(s: CarouselState, n: nat)
    requires s.index < n && s.autoPlaying
    ensures Run(s, Ticks(n), n) == Some(s)
  {
    TicksAdvanceTimes(s, n, n);
    FullCycle(s.index, n);
  }

  /** "Previous" then "next" shows the review shown before, with autoplay off. */
  lemma PrevThenNext(s: CarouselState, n: nat)
    requires s.index < n
    ensures Run(s, [PrevPressed, NextPressed], n) == Some(CarouselState(s.index, false))
  {
  }

  /** "Next" then "previous" shows the review shown before, with autoplay off. */
  lemma NextThenPrev(s: CarouselState, n: nat)
    requires s.index < n
    ensures Run(s, [NextPressed, PrevPressed], n) == Some(CarouselState(s.index, false))
  {
  }

  /** The targets of the indicator dots: one dot per review, dot i jumping to review i. */
  function DotTargets(n: nat): (r: seq<nat>)
    ensures |r| == n
    ensures forall i :: 0 <= i < |r| ==> r[i] == i
  {
    seq(n, i => i)
  }

  /** Every dot can be pressed in every state: its target is always an index of the list. */
  lemma DotsAlwaysEnabled(s: CarouselState, n: nat)
    ensures forall i :: 0 <= i < |DotTargets(n)| ==> Enabled(s, DotPressed(DotTargets(n)[i]), n)
  {
  }

  /**
   * Three reviews, from the initial state: the timer fires (review 2 of 3),
   * "previous" (review 1, autoplay off), dot 3 (review 3); after that the
   * timer can no longer fire.
   */
  lemma ThreeReviewScenario()
    ensures Run(Initial(), [TimerFired], 3) == Some(CarouselState(1, true))
    ensures Run(Initial(), [TimerFired, PrevPressed], 3) == Some(CarouselState(0, false))
    ensures Run(Initial(), [TimerFired, PrevPressed, DotPressed(2)], 3) == Some(CarouselState(2, false))
    ensures Run(Initial(), [TimerFired, PrevPressed, DotPressed(2), TimerFired], 3) == None
  {
  }

  // ---------------------------------------------------------------------------
  // The widget, updating its two state fields in place
  // ---------------------------------------------------------------------------

  class TestimonialsCarousel {
    const testimonials: seq<Testimonial>
    const n: nat
    var currentIndex: nat
    var autoPlaying: bool

    /** The index always points into the list: `testimonials[currentIndex]` is defined. */
    ghost predicate Valid()
      reads this
    {
      n == |testimonials| && 0 < n && currentIndex < n
    }

    function State(): CarouselState
      reads this
    {
      CarouselState(currentIndex, autoPlaying)
    }

    constructor (records: seq<Testimonial>)
      requires |records| > 0
      ensures Valid()
      ensures testimonials == records && State() == Initial()
    {
      testimonials := records;
      n := |records|;
      currentIndex := 0;
      autoPlaying := true;
    }

    /** The interval callback. It only runs while autoplay is on. */
    method Tick()
      requires Valid() && Enabled(State(), TimerFired, n)
      modifies this
      ensures Valid() && State() == Step(old(State()), TimerFired, n)
    {
      currentIndex := (currentIndex + 1) % n;
    }

    /** `nextTestimonial`. */
    method Next()
      requires Valid()
      modifies this
      ensures Valid() && State() == Step(old(State()), NextPressed, n)
    {
      currentIndex := (currentIndex + 1) % n;
      autoPlaying := false;
    }

    /** `prevTestimonial`. */
    method Prev()
      requires Valid()
      modifies this
      ensures Valid() && State() == Step(old(State()), PrevPressed, n)
    {
      currentIndex := (currentIndex - 1 + n) % n;
      autoPlaying := false;
    }

    /** `goToTestimonial(index)`, as called by the dot for review `index`. */
    method GoTo(index: nat)
      requires Valid() && index < n
      modifies this
      ensures Valid() && State() == Step(old(State()), DotPressed(index), n)
    {
      currentIndex := index;
      autoPlaying := false;
    }

    /** The review on display. */
    function Current(): (t: Testimonial)
      reads this
      requires Valid()
      ensures t in testimonials
    {
      testimonials[currentIndex]
    }

    /** The number of star marks on display: the displayed review's rating. */
    function StarCount(): (k: nat)
      reads this
      requires Valid()
      ensures k == Current().rating
      ensures exists t :: t in testimonials && k == t.rating
    {
      |StarKeys(Current())|
    }
  }

  /** The three-review scenario, driven through the widget's methods. */
  method WidgetScenario()
  {
    var c := new TestimonialsCarousel(Testimonials());
    assert c.State() == CarouselState(0, true);
    c.Tick();
    assert c.State() == CarouselState(1, true);
    c.Prev();
    assert c.State() == CarouselState(0, false);
    c.GoTo(2);
    assert c.State() == CarouselState(2, false);
    assert !Enabled(c.State(), TimerFired, c.n);
    assert c.Current().source == "google" && Brand(c.Current()).value.name == "Google Reviews";
    assert c.StarCount() == 5;
  }
}
