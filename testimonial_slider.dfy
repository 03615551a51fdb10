/**
 * The testimonial carousel: the featured testimonials loaded once, the index
 * of the one shown, and the next and previous buttons, which move the index
 * around the list modulo its length.
 */
module TestimonialSlider {
  import opened Wrappers
  import opened Schema

  datatype Testimonial = Testimonial(
    id: Id,
    name: string,
    role: Option<string>,
    content: string,
    avatarUrl: Option<string>,
    rating: Option<int>,
    featured: Option<bool>,
    createdAt: string)

  const DEFAULT_STARS := 5

  /** `(prev + 1) % testimonials.length`: the following index, wrapping from the last to the first. */
  function Next(i: nat, n: nat): (r: nat)
    requires n > 0
    ensures r < n
    ensures i + 1 < n ==> r == i + 1
    ensures i + 1 == n ==> r == 0
  {
    (i + 1) % n
  }

  /** `(prev - 1 + testimonials.length) % testimonials.length`: the preceding index, wrapping from the first to the last. */
  function Prev(i: nat, n: nat): (r: nat)
    requires n > 0
    ensures r < n
    ensures 0 < i < n ==> r == i - 1
    ensures i == 0 ==> r == n - 1
  {
    (i - 1 + n) % n
  }

  /** Going back undoes going forward. */
  lemma PrevNext(i: nat, n: nat)
    requires i < n
    ensures Prev(Next(i, n), n) == i
  {
  }

  /** Going forward undoes going back. */
  lemma NextPrev(i: nat, n: nat)
    requires i < n
    ensures Next(Prev(i, n), n) == i
  {
  }

  /** The index after `k` presses of the next button. */
  function NextSteps(i: nat, n: nat, k: nat): (r: nat)
    requires n > 0
    ensures i < n ==> r < n
  {
    if k == 0 then i else Next(NextSteps(i, n, k - 1), n)
  }

  /** A number has one remainder: `x == q * n + s` with `0 <= s < n` makes `s` the remainder. */
  lemma ModUnique(x: int, n: int, q: int, s: int)
    requires n > 0 && 0 <= s < n && x == q * n + s
    ensures x % n == s
  {
    var q', s' := x / n, x % n;
    assert x == q' * n + s';
    assert (q - q') * n == s' - s by {
      assert q * n - q' * n == (q - q') * n;
    }
    if q - q' >= 1 {
      MulAtLeast(q - q', n);
    } else if q' - q >= 1 {
      MulAtLeast(q' - q, n);
    }
  }

  /** A positive multiple of `n` is at least `n`: two quotients of one division cannot differ. */
  lemma MulAtLeast(d: int, n: int)
    requires d >= 1 && n > 0
    ensures d * n >= n
  {
  }

  /** Adding one after taking the remainder is adding one before. */
  lemma ModSucc(a: nat, n: nat)
    requires n > 0
    ensures (a % n + 1) % n == (a + 1) % n
  {
    var q, r := a / n, a % n;
    assert a == q * n + r;
    if r + 1 < n {
      ModUnique(a + 1, n, q, r + 1);
      ModUnique(r + 1, n, 0, r + 1);
    } else {
      assert a + 1 == (q + 1) * n + 0;
      ModUnique(a + 1, n, q + 1, 0);
      ModUnique(r + 1, n, 1, 0);
    }
  }

  /** `k` presses of next from index `i` show index `(i + k) % n`. */
  lemma {:induction false} NextStepsMod(i: nat, n: nat, k: nat)
    requires n > 0 && i < n
    ensures NextSteps(i, n, k) == (i + k) % n
  {
    if k == 0 {
      ModUnique(i, n, 0, i);
    } else {
      NextStepsMod(i, n, k - 1);
      ModSucc(i + k - 1, n);
    }
  }

  /** Pressing next once per testimonial comes back to where it started. */
  lemma FullCycle(i: nat, n: nat)
    requires n > 0 && i < n
    ensures NextSteps(i, n, n) == i
  {
    NextStepsMod(i, n, n);
    ModUnique(i + n, n, 1, i);
  }

  /** The testimonial shown: nothing for an empty list, otherwise the one at the index. */
  function Shown(testimonials: seq<Testimonial>, activeIndex: nat): (r: Option<Testimonial>)
    requires testimonials != [] ==> activeIndex < |testimonials|
    ensures r.None? <==> testimonials == []
    ensures r.Some? ==> r.value in testimonials
  {
    if testimonials == [] then None else Some(testimonials[activeIndex])
  }

  /** `t.rating || 5`: the number of stars drawn; a missing or zero rating draws five. */
  function Stars(rating: Option<int>): (r: Option<nat>)
    ensures r.None? <==> rating.Some? && rating.value < 0
    ensures r.Some? ==> r.value >= 1
    ensures rating.Some? && rating.value >= 1 ==> r == Some(rating.value)
    ensures rating.None? || rating.value == 0 ==> r == Some(DEFAULT_STARS)
  {
    if rating.Some? && rating.value != 0 then
      (if rating.value < 0 then None else Some(rating.value))
    else Some(DEFAULT_STARS)
  }

  /** A stored rating, 0 to 5, always draws between one and five stars. */
  lemma StoredRatingStars(rating: int)
    requires 0 <= rating <= 5
    ensures Stars(Some(rating)).Some? && 1 <= Stars(Some(rating)).value <= 5
  {
  }

  /** The carousel's state. */
  class Slider {
    var testimonials: seq<Testimonial>
    var activeIndex: nat

    /** The index points at a testimonial, or is 0 while there are none. */
    ghost predicate Valid()
      reads this
    {
      if testimonials == [] then activeIndex == 0 else activeIndex < |testimonials|
    }

    constructor ()
      ensures Valid() && testimonials == [] && activeIndex == 0
    {
      testimonials := [];
      activeIndex := 0;
    }

    /** The mount effect: the fetched featured testimonials, or nothing when the call failed. */
    method Load(fetched: Option<seq<Testimonial>>)
      requires testimonials == [] && activeIndex == 0
      modifies this`testimonials
      ensures Valid()
      ensures testimonials == fetched.GetOr([])
    {
      if fetched.Some? {
        testimonials := fetched.value;
      }
    }

    /** The next button, which is only drawn when there is a testimonial. */
    method GoNext()
      requires Valid() && testimonials != []
      modifies this`activeIndex
      ensures Valid()
      ensures activeIndex == Next(old(activeIndex), |testimonials|)
    {
      activeIndex := (activeIndex + 1) % |testimonials|;
    }

    /** The previous button. */
    method GoPrev()
      requires Valid() && testimonials != []
      modifies this`activeIndex
      ensures Valid()
      ensures activeIndex == Prev(old(activeIndex), |testimonials|)
    {
      activeIndex := (activeIndex - 1 + |testimonials|) % |testimonials|;
    }

    /** What the component renders: nothing, or the testimonial at the index. */
    function Current(): (r: Option<Testimonial>)
      reads this
      requires Valid()
      ensures r.None? <==> testimonials == []
      ensures r.Some? ==> r.value == testimonials[activeIndex]
    {
      Shown(testimonials, activeIndex)
    }
  }
}
