/**
 * The testimonials carousel: a current index moved modulo the number of testimonials by the
 * arrows, the dots and the autoplay timer, and the window of three cards starting at it.
 */
module Testimonials {
  import opened SiteContent

  datatype Testimonial = Testimonial(
    id: int, name: string, position: string, organization: string, content: string,
    rating: int, image: string)

  /** The carousel's own list (the section does not read the site content). */
  const AllTestimonials: seq<Testimonial> := [
    Testimonial(1, "Col. Rajesh Kumar", "Project Director", "Indian Army",
      "Zenture IT Solutions delivered a robust and secure communication system that exceeded our expectations. Their attention to security details and timely delivery was impressive.",
      5, "military-officer"),
    Testimonial(2, "Dr. Priya Sharma", "Chief Technology Officer", "Indian Forest Department",
      "The wildlife tracking system has revolutionized our forest management. The team's expertise in GIS integration and real-time data processing is outstanding.",
      5, "professional-woman"),
    Testimonial(3, "Michael Chen", "Digital Operations Manager", "Guinness World Records",
      "Working with Zenture was a pleasure. They understood our unique verification needs and created a platform that streamlined our entire records management process.",
      5, "business-man"),
    Testimonial(4, "Sarah Anderson", "CEO", "TechVentures Inc.",
      "The AI-powered analytics platform they developed has transformed how we make business decisions. The insights we gain are invaluable.",
      5, "executive-woman"),
    Testimonial(5, "Amit Patel", "Operations Director", "SmartFactory Solutions",
      "Their IoT solutions have optimized our manufacturing processes. Real-time monitoring and predictive maintenance have saved us significant costs.",
      5, "tech-professional"),
    Testimonial(6, "Emma Wilson", "Founder", "GreenTech Innovations",
      "Exceptional team! They built our mobile app from scratch with incredible attention to detail. The user experience is flawless.",
      5, "entrepreneur-woman")
  ]

  /** `(prev + 1) % n` */
  function NextIndex(i: nat, n: nat): (r: nat)
    requires n > 0
    ensures r < n
  {
    (i + 1) % n
  }

  /** `(prev - 1 + n) % n`; the sum is never negative for an index in range. */
  function PrevIndex(i: nat, n: nat): (r: nat)
    requires 0 < n && i < n
    ensures r < n
  {
    (i - 1 + n) % n
  }

  /** From the first card the previous one is the last. */
  lemma PrevFromFirst(n: nat)
    requires n > 0
    ensures PrevIndex(0, n) == n - 1
    ensures NextIndex(n - 1, n) == 0
  {
  }

  lemma ModBelow(a: int, n: int)
    requires 0 <= a < n
    ensures a % n == a
  {
  }

  lemma ModShift(a: int, n: int)
    requires 0 <= a < n
    ensures (a + n) % n == a
  {
  }

  /** `next` and `prev` undo each other on [0, n). */
  lemma NextPrevInverse(i: nat, n: nat)
    requires 0 < n && i < n
    ensures PrevIndex(NextIndex(i, n), n) == i
    ensures NextIndex(PrevIndex(i, n), n) == i
  {
    if i + 1 < n {
      ModBelow(i + 1, n);
      ModShift(i, n);
    } else {
      ModShift(0, n);
      ModShift(i, n);
    }
    if i == 0 {
      ModBelow(n - 1, n);
      ModShift(0, n);
    } else {
      ModShift(i - 1, n);
      ModBelow(i, n);
    }
  }

  /** The index after `k` calls of `next`. */
  function NextTimes(i: nat, k: nat, n: nat): (r: nat)
    requires n > 0
    ensures r < n || (k == 0 && r == i)
  {
    if k == 0 then i else NextIndex(NextTimes(i, k - 1, n), n)
  }

  lemma {:induction false} MulAtLeast(d: int, n: int)
    requires d >= 1 && n > 0
    ensures d * n >= n
  {
    if d > 1 {
      MulAtLeast(d - 1, n);
      assert d * n == (d - 1) * n + n;
    }
  }

  /** The remainder is the only `r` in [0, n) with `x == q * n + r`. */
  lemma ModUnique(x: int, q: int, r: int, n: int)
    requires 0 < n && 0 <= r < n && x == q * n + r
    ensures x % n == r
  {
    var q0, r0 := x / n, x % n;
    assert x == q0 * n + r0;
    if q > q0 {
      MulAtLeast(q - q0, n);
      assert false;
    } else if q < q0 {
      MulAtLeast(q0 - q, n);
      assert false;
    }
  }

  /** Adding one after reducing modulo `n` is adding one before. */
  lemma ModSucc(a: nat, n: nat)
    requires 0 < n
    ensures ((a % n) + 1) % n == (a + 1) % n
  {
    var q, r := a / n, a % n;
    assert a == q * n + r;
    if r + 1 < n {
      ModUnique(a + 1, q, r + 1, n);
      ModUnique(r + 1, 0, r + 1, n);
    } else {
      assert a + 1 == (q + 1) * n + 0;
      ModUnique(a + 1, q + 1, 0, n);
      ModUnique(r + 1, 1, 0, n);
    }
  }

  /**
   * Any number `k` of calls of `next` advance an index in range by `k` modulo `n`; up to `n`
   * calls wrap around at most once.
   */
  lemma {:induction false} NextTimesIsShift(i: nat, k: nat, n: nat)
    requires 0 < n && i < n
    ensures NextTimes(i, k, n) == (i + k) % n
    ensures k <= n ==> NextTimes(i, k, n) == if i + k < n then i + k else i + k - n
  {
    if k == 0 {
      ModBelow(i, n);
    } else {
      NextTimesIsShift(i, k - 1, n);
      ModSucc(i + k - 1, n);
    }
    if k <= n {
      if i + k < n {
        ModBelow(i + k, n);
      } else {
        ModShift(i + k - n, n);
      }
    }
  }

  /** `n` calls of `next` come back to the starting card. */
  lemma NextFullTurn(i: nat, n: nat)
    requires 0 < n && i < n
    ensures NextTimes(i, n, n) == i
  {
    NextTimesIsShift(i, n, n);
  }

  /** The three cards starting at index `i`, wrapping around. */
  function VisibleWindow(items: seq<Testimonial>, i: nat): (r: seq<Testimonial>)
    requires |items| > 0
    ensures |r| == 3
  {
    seq(3, k requires 0 <= k < 3 => items[(i + k) % |items|])
  }

  /** With at least three distinct testimonials the three visible cards are distinct. */
  lemma {:induction false} WindowDistinct(items: seq<Testimonial>, i: nat)
    requires |items| >= 3 && i < |items| && Distinct(items)
    ensures Distinct(VisibleWindow(items, i))
  {
    var w := VisibleWindow(items, i);
    forall a, b | 0 <= a < b < 3 ensures w[a] != w[b] {
      WrapDistinct(i, a, b, |items|);
    }
  }

  lemma WrapDistinct(i: nat, a: nat, b: nat, n: nat)
    requires a < b < 3 <= n && i < n
    ensures (i + a) % n != (i + b) % n
  {
    if i + a < n { ModBelow(i + a, n); } else { ModShift(i + a - n, n); }
    if i + b < n { ModBelow(i + b, n); } else { ModShift(i + b - n, n); }
  }

  /** The six testimonials are distinct (their ids are 1 to 6). */
  lemma TestimonialsDistinct()
    ensures |AllTestimonials| == 6
    ensures Distinct(AllTestimonials)
  {
    var ids := seq(6, k requires 0 <= k < 6 => AllTestimonials[k].id);
    assert ids == [1, 2, 3, 4, 5, 6];
    forall a, b | 0 <= a < b < 6 ensures AllTestimonials[a] != AllTestimonials[b] {
      assert ids[a] != ids[b];
    }
  }

  /** The carousel state. */
  class Carousel {
    var currentIndex: nat
    var isAutoPlaying: bool

    predicate Valid()
      reads this
    {
      currentIndex < |AllTestimonials|
    }

    /** The first render: the first card, autoplay on. */
    constructor()
      ensures Valid() && currentIndex == 0 && isAutoPlaying
    {
      currentIndex := 0;
      isAutoPlaying := true;
    }

    /** `nextTestimonial`, also what each autoplay tick does. */
    method Next()
      requires Valid()
      modifies this
      ensures Valid()
      ensures currentIndex == NextIndex(old(currentIndex), |AllTestimonials|)
      ensures isAutoPlaying == old(isAutoPlaying)
    {
      currentIndex := (currentIndex + 1) % |AllTestimonials|;
    }

    /** `prevTestimonial` */
    method Prev()
      requires Valid()
      modifies this
      ensures Valid()
      ensures currentIndex == PrevIndex(old(currentIndex), |AllTestimonials|)
      ensures isAutoPlaying == old(isAutoPlaying)
    {
      currentIndex := (currentIndex - 1 + |AllTestimonials|) % |AllTestimonials|;
    }

    /** The autoplay interval fires only while autoplay is on. */
    method AutoPlayTick()
      requires Valid()
      modifies this
      ensures Valid()
      ensures isAutoPlaying ==> currentIndex == NextIndex(old(currentIndex), |AllTestimonials|)
      ensures !isAutoPlaying ==> currentIndex == old(currentIndex)
      ensures isAutoPlaying == old(isAutoPlaying)
    {
      if isAutoPlaying {
        Next();
      }
    }

    /** The left arrow: previous card, autoplay off. */
    method OnPrevClick()
      requires Valid()
      modifies this
      ensures Valid()
      ensures currentIndex == PrevIndex(old(currentIndex), |AllTestimonials|) && !isAutoPlaying
    {
      Prev();
      isAutoPlaying := false;
    }

    /** The right arrow: next card, autoplay off. */
    method OnNextClick()
      requires Valid()
      modifies this
      ensures Valid()
      ensures currentIndex == NextIndex(old(currentIndex), |AllTestimonials|) && !isAutoPlaying
    {
      Next();
      isAutoPlaying := false;
    }

    /** Dot `index` (one dot per testimonial): jump to that card, autoplay off. */
    method OnDotClick(index: nat)
      requires index < |AllTestimonials|
      modifies this
      ensures Valid()
      ensures currentIndex == index && !isAutoPlaying
    {
      currentIndex := index;
      isAutoPlaying := false;
    }

    /**
     * The mouse or a touch entering the cards pauses autoplay (`on` false); leaving them
     * resumes it (`on` true). The card does not move.
     */
    method SetAutoPlaying(on: bool)
      requires Valid()
      modifies this
      ensures Valid()
      ensures isAutoPlaying == on && currentIndex == old(currentIndex)
    {
      isAutoPlaying := on;
    }

    /** `getVisibleTestimonials` */
    method GetVisibleTestimonials() returns (visible: seq<Testimonial>)
      requires Valid()
      ensures visible == VisibleWindow(AllTestimonials, currentIndex)
      ensures Distinct(visible)
    {
      visible := [];
      for i := 0 to 3
        invariant |visible| == i
        invariant forall k :: 0 <= k < i ==> visible[k] == AllTestimonials[(currentIndex + k) % |AllTestimonials|]
      {
        var index := (currentIndex + i) % |AllTestimonials|;
        visible := visible + [AllTestimonials[index]];
      }
      TestimonialsDistinct();
      WindowDistinct(AllTestimonials, currentIndex);
    }
  }
}
