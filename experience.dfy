/**
 * components/Experience.tsx: the work-history carousel. Its index moves forward
 * and back through the fixed list of experiences, wrapping at both ends.
 */
module ExperienceSection {

  datatype Experience = Experience(
    id: string,
    role: string,
    company: string,
    period: string,
    description: string,
    logo: string)

  /** `experiences`. */
  const EXPERIENCES: seq<Experience> := [
    Experience(
      id := "1",
      role := "Senior Full Stack Engineer",
      company := "TechFlow Systems",
      period := "2022 - Present",
      description := "Leading a team of 6 engineers rebuilding the core SaaS platform. Improved system performance by 40% by migrating legacy monolithic services to microservices on AWS.",
      logo := "https://picsum.photos/id/1/60/60"),
    Experience(
      id := "2",
      role := "Software Engineer",
      company := "DataStream Corp",
      period := "2019 - 2022",
      description := "Developed real-time data visualization dashboards using D3.js and React. Implemented WebSocket connections handling over 10k concurrent users.",
      logo := "https://picsum.photos/id/2/60/60"),
    Experience(
      id := "3",
      role := "Frontend Developer",
      company := "Creative Agency X",
      period := "2017 - 2019",
      description := "Built award-winning marketing sites and e-commerce platforms. Worked closely with designers to implement pixel-perfect responsive UIs.",
      logo := "https://picsum.photos/id/3/60/60")
  ]

  lemma ExperiencesCount()
    ensures |EXPERIENCES| == 3
  {
  }

  /**
   * `(i + 1) % n`, the `next` update. JavaScript's `%` truncates toward zero where
   * Dafny's is Euclidean; the two agree here because the operands are never negative.
   */
  function NextIndex(i: nat, n: nat): (j: nat)
    requires n > 0
    ensures j < n
    ensures i < n - 1 ==> j == i + 1
    ensures i == n - 1 ==> j == 0
  {
    (i + 1) % n
  }

  /** `(i - 1 + n) % n`, the `prev` update; `i - 1 + n` is never negative for an index `i`. */
  function PrevIndex(i: nat, n: nat): (j: nat)
    requires n > 0
    ensures j < n
    ensures 0 < i <= n ==> j == i - 1
    ensures i == 0 ==> j == n - 1
  {
    (i - 1 + n) % n
  }

  /** `prev` undoes `next`, and `next` undoes `prev`, on every index of the list. */
  lemma PrevNextInverse(i: nat, n: nat)
    requires i < n
    ensures PrevIndex(NextIndex(i, n), n) == i
    ensures NextIndex(PrevIndex(i, n), n) == i
  {
  }

  /** `next` applied `k` times. */
  function Forward(i: nat, k: nat, n: nat): (j: nat)
    requires n > 0
    ensures j < n || (k == 0 && j == i)
    decreases k
  {
    if k == 0 then i else Forward(NextIndex(i, n), k - 1, n)
  }

  /** Short of the end of the list, `k` steps forward add `k`. */
  lemma {:induction false} ForwardNoWrap(i: nat, k: nat, n: nat)
    requires i + k < n
    ensures Forward(i, k, n) == i + k
    decreases k
  {
    if k > 0 {
      ForwardNoWrap(i + 1, k - 1, n);
    }
  }

  /** Going `a` steps and then `b` steps is going `a + b` steps. */
  lemma {:induction false} ForwardCompose(i: nat, a: nat, b: nat, n: nat)
    requires n > 0
    ensures Forward(i, a + b, n) == Forward(Forward(i, a, n), b, n)
    decreases a
  {
    if a > 0 {
      ForwardCompose(NextIndex(i, n), a - 1, b, n);
    }
  }

  /** Applying `next` once per experience returns to the index it started from. */
  lemma ForwardFullCircle(i: nat, n: nat)
    requires i < n
    ensures Forward(i, n, n) == i
  {
    ForwardNoWrap(i, n - 1 - i, n);
    ForwardCompose(i, n - 1 - i, 1, n);
    assert Forward(i, n - i, n) == 0;
    ForwardNoWrap(0, i, n);
    ForwardCompose(i, n - i, i, n);
  }

  /** A button press of the carousel. */
  datatype Move = NextMove | PrevMove

  /** The index after a sequence of presses. */
  function Run(i: nat, moves: seq<Move>, n: nat): (j: nat)
    requires n > 0
    ensures i < n ==> j < n
    decreases |moves|
  {
    if moves == [] then i
    else
      var i' := if moves[0] == NextMove then NextIndex(i, n) else PrevIndex(i, n);
      Run(i', moves[1..], n)
  }

  /** The carousel's state. */
  class ExperienceCarousel {
    var currentIndex: nat

    /** The index points into the list. */
    ghost predicate Valid()
      reads this
    {
      currentIndex < |EXPERIENCES|
    }

    /** The index starts at 0. */
    constructor ()
      ensures currentIndex == 0 && Valid()
    {
      currentIndex := 0;
    }

    /** The "next" button. */
    method Next()
      requires Valid()
      modifies this
      ensures currentIndex == NextIndex(old(currentIndex), |EXPERIENCES|) && Valid()
    {
      currentIndex := (currentIndex + 1) % |EXPERIENCES|;
    }

    /** The "previous" button. */
    method Prev()
      requires Valid()
      modifies this
      ensures currentIndex == PrevIndex(old(currentIndex), |EXPERIENCES|) && Valid()
    {
      currentIndex := (currentIndex - 1 + |EXPERIENCES|) % |EXPERIENCES|;
    }

    /** `currentExp`: always an element of the list. */
    function CurrentExp(): (e: Experience)
      requires Valid()
      reads this
      ensures e in EXPERIENCES && e == EXPERIENCES[currentIndex]
    {
      EXPERIENCES[currentIndex]
    }
  }
}
