/** src/components/hero.tsx: the landing-page carousel. The current slide
    index is the component's one piece of state; the arrows and a periodic
    timer change it by modular steps. The timer period is not modelled,
    only the effect of each tick. */
module Hero {
  datatype Slide = Slide(image: string, title: string)

  const Slides: seq<Slide> := [
    Slide("/Estacion.png", "Energía Que Mueve Tu Camino."),
    Slide("/Estacion2.jpg", "Gasolina, Diésel y GNV en un solo lugar."),
    Slide("/Estacion3.jpg", "Atención eficiente, incluso de noche."),
    Slide("/Estacion4.jpg", "Planifica tu ruta con PetroBOL.")
  ]

  const SlideCount := |Slides|

  predicate InRange(i: int) {
    0 <= i < SlideCount
  }

  /** The index after a step forward, wrapping from the last slide to the first. */
  function NextIndex(i: int): (j: int)
    requires InRange(i)
    ensures InRange(j)
    ensures i < SlideCount - 1 ==> j == i + 1
    ensures i == SlideCount - 1 ==> j == 0
  {
    (i + 1) % SlideCount
  }

  /** The index after a step back, wrapping from the first slide to the last. */
  function PrevIndex(i: int): (j: int)
    requires InRange(i)
    ensures InRange(j)
    ensures i > 0 ==> j == i - 1
    ensures i == 0 ==> j == SlideCount - 1
  {
    (i - 1 + SlideCount) % SlideCount
  }

  lemma NextThenPrev(i: int)
    requires InRange(i)
    ensures PrevIndex(NextIndex(i)) == i
    ensures NextIndex(PrevIndex(i)) == i
  {
  }

  /** `k` steps forward. */
  function Advance(i: int, k: nat): (j: int)
    requires InRange(i)
    ensures InRange(j)
  {
    if k == 0 then i else NextIndex(Advance(i, k - 1))
  }

  /** `k` steps forward move the index by `k` modulo the slide count. */
  lemma {:induction false} AdvanceIsModular(i: int, k: nat)
    requires InRange(i)
    ensures Advance(i, k) == (i + k) % SlideCount
  {
    if k > 0 {
      AdvanceIsModular(i, k - 1);
    }
  }

  /** As many steps forward as there are slides return to the start. */
  lemma FullCycle(i: int)
    requires InRange(i)
    ensures Advance(i, SlideCount) == i
  {
    AdvanceIsModular(i, SlideCount);
  }

  /** Which slides, and which indicators, are shown as active. */
  function ActiveFlags(current: int): (flags: seq<bool>)
    ensures |flags| == SlideCount
    ensures forall i :: 0 <= i < SlideCount ==> (flags[i] <==> i == current)
  {
    seq(SlideCount, i => i == current)
  }

  function CountTrue(flags: seq<bool>): nat {
    if flags == [] then 0 else (if flags[0] then 1 else 0) + CountTrue(flags[1..])
  }

  lemma {:induction false} CountTrueOneHot(flags: seq<bool>, c: int)
    requires forall i :: 0 <= i < |flags| ==> (flags[i] <==> i == c)
    ensures CountTrue(flags) == if 0 <= c < |flags| then 1 else 0
  {
    if flags != [] {
      CountTrueOneHot(flags[1..], c - 1);
    }
  }

  /** Exactly one slide and one indicator are active. */
  lemma ExactlyOneActive(current: int)
    requires InRange(current)
    ensures CountTrue(ActiveFlags(current)) == 1
  {
    CountTrueOneHot(ActiveFlags(current), current);
  }

  class Carousel {
    var current: int

    predicate Valid()
      reads this
    {
      InRange(current)
    }

    /** The first slide is shown at mount. */
    constructor ()
      ensures Valid() && current == 0
    {
      current := 0;
    }

    /** `handleNext`. */
    method Next()
      requires Valid()
      modifies this
      ensures Valid() && current == NextIndex(old(current))
    {
      current := (current + 1) % SlideCount;
    }

    /** `handlePrev`. */
    method Prev()
      requires Valid()
      modifies this
      ensures Valid() && current == PrevIndex(old(current))
    {
      current := (current - 1 + SlideCount) % SlideCount;
    }

    /** One timer tick: the same update as `handleNext`. */
    method Tick()
      requires Valid()
      modifies this
      ensures Valid() && current == NextIndex(old(current))
    {
      current := (current + 1) % SlideCount;
    }
  }
}
