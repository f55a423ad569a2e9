/** The relaxation games page (src/pages/RelaxGames.tsx): a breathing bubble
    that counts 4..1 through inhale, hold and exhale; a colour-therapy grid of
    six of nine calm colours; a bubble garden of at most ten bubbles that each
    fade after a delay; zen squares and a mindful counter; and one points
    ledger that every activity adds to, from which flowers and mindful moments
    are derived. */
module RelaxGames {
  import opened Common

  datatype Phase = Inhale | Hold | Exhale

  /** The phase that follows when a phase's countdown ends. */
  function NextPhase(p: Phase): Phase
  {
    match p
    case Inhale => Hold
    case Hold => Exhale
    case Exhale => Inhale
  }

  /** The breathing bubble's phase and the seconds left in it. */
  datatype Breath = Breath(phase: Phase, count: int)

  const PhaseLength := 4
  const FirstBreath := Breath(Inhale, PhaseLength)

  /** A countdown inside a phase. */
  ghost predicate InPhase(b: Breath)
  {
    1 <= b.count <= PhaseLength
  }

  /** One second of the breathing interval: the count goes down by one, and when
      it was at one the next phase starts with a full count instead. */
  function Tick(b: Breath): (r: Breath)
    ensures InPhase(b) ==> InPhase(r)
    ensures b.count != 1 ==> r == Breath(b.phase, b.count - 1)
    ensures b.count == 1 ==> r == Breath(NextPhase(b.phase), PhaseLength)
  {
    if b.count == 1 then Breath(NextPhase(b.phase), PhaseLength) else Breath(b.phase, b.count - 1)
  }

  /** `n` seconds of breathing. */
  function Ticks(b: Breath, n: nat): Breath
    decreases n
  {
    if n == 0 then b else Ticks(Tick(b), n - 1)
  }

  lemma {:induction false} TicksAdd(b: Breath, m: nat, n: nat)
    ensures Ticks(b, m + n) == Ticks(Ticks(b, m), n)
    decreases m
  {
    if m > 0 {
      TicksAdd(Tick(b), m - 1, n);
    }
  }

  /** However long the session runs, the count stays within 1..4. */
  lemma {:induction false} TicksStayInPhase(b: Breath, n: nat)
    requires InPhase(b)
    ensures InPhase(Ticks(b, n))
    decreases n
  {
    if n > 0 {
      TicksStayInPhase(Tick(b), n - 1);
    }
  }

  /** Within a phase the count goes down one per second: after `k` seconds of a
      countdown at `c > k` the phase is the same and the count is `c - k`. */
  lemma {:induction false} CountdownWithinPhase(b: Breath, k: nat)
    requires k < b.count
    ensures Ticks(b, k) == Breath(b.phase, b.count - k)
    decreases k
  {
    if k > 0 {
      CountdownWithinPhase(Tick(b), k - 1);
    }
  }

  /** A countdown at `c` ends after exactly `c` seconds, with the next phase at a
      full count. */
  lemma PhaseEnds(b: Breath)
    requires InPhase(b)
    ensures Ticks(b, b.count) == Breath(NextPhase(b.phase), PhaseLength)
  {
    CountdownWithinPhase(b, b.count - 1);
    TicksAdd(b, b.count - 1, 1);
  }

  /** So every phase lasts four seconds, and a breath of inhale, hold and exhale
      takes twelve: the bubble is back where it was after any twelve seconds. */
  lemma BreathCycle(b: Breath)
    requires InPhase(b)
    ensures Ticks(b, 3 * PhaseLength) == b
  {
    var c := b.count;
    var p := b.phase;
    PhaseEnds(b);
    PhaseEnds(Breath(NextPhase(p), PhaseLength));
    PhaseEnds(Breath(NextPhase(NextPhase(p)), PhaseLength));
    assert NextPhase(NextPhase(NextPhase(p))) == p;
    CountdownWithinPhase(Breath(p, PhaseLength), PhaseLength - c);
    TicksAdd(b, c, PhaseLength);
    TicksAdd(b, c + PhaseLength, PhaseLength);
    TicksAdd(b, c + 2 * PhaseLength, PhaseLength - c);
  }

  /** The nine colour-therapy colours. */
  const Palette: seq<string> := [
    "hsl(var(--calm-blue))", "hsl(var(--support-green))", "hsl(var(--warm-yellow))",
    "hsl(var(--gentle-purple))", "hsl(var(--soft-pink))", "hsl(var(--mint-green))",
    "hsl(var(--lavender))", "hsl(var(--peach))", "hsl(var(--sky-blue))"
  ]

  const ShownColors := 6
  const MaxBubbles := 10

  /** Fixed point awards. */
  const SessionPoints := 10
  const ColorPoints := 5
  const BubblePoints := 3
  const ZenPoints := 2
  const MindfulPoints := 5

  lemma PaletteDistinct()
    ensures |Palette| == 9 && Distinct(Palette)
  {
  }

  /** `generateColors` with the random sort putting the palette in the order
      `order`: six different palette colours. */
  function TherapyColors(order: seq<nat>): (r: seq<string>)
    requires IsOrder(order, |Palette|)
    ensures |r| == ShownColors && Distinct(r)
    ensures forall c :: c in r ==> c in Palette
  {
    PaletteDistinct();
    Pick(Palette, order, ShownColors)
  }

  /** Flowers in the gratitude garden: one per full 20 points. */
  function FlowerCount(points: nat): (n: nat)
    ensures 20 * n <= points < 20 * (n + 1)
  {
    points / 20
  }

  /** The mindful counter: one per full 5 points. */
  function MomentCount(points: nat): (n: nat)
    ensures 5 * n <= points < 5 * (n + 1)
  {
    points / 5
  }

  /** Since points only grow, neither the garden nor the counter ever shrinks,
      and every 20 points add a flower. */
  lemma {:induction false} FlowersGrow(p: nat, q: nat)
    requires p <= q
    ensures FlowerCount(p) <= FlowerCount(q) && MomentCount(p) <= MomentCount(q)
    ensures FlowerCount(p + 20) == FlowerCount(p) + 1
  {
    var n := FlowerCount(p);
    assert 20 * (n + 1) <= p + 20 < 20 * (n + 2);
  }

  class RelaxPage {
    var breathingPhase: Phase
    var breathingCount: int
    var isBreathing: bool
    var colorTherapyColors: seq<string>
    /** `""` until a colour is chosen. */
    var selectedColor: string
    var bubbleCount: int
    /** Bubble-fade timers started by `createBubble` that have not fired yet. */
    var pendingFades: nat
    var points: int

    /** The countdown is within 1..4; the grid is empty or six different palette
        colours and the chosen colour, if any, a palette colour; the garden holds 0..10
        bubbles, one per pending fade timer; points are never negative. */
    ghost predicate Valid()
      reads this
    {
      && InPhase(Breath(breathingPhase, breathingCount))
      && (colorTherapyColors == [] || (|colorTherapyColors| == ShownColors && Distinct(colorTherapyColors)))
      && (forall c :: c in colorTherapyColors ==> c in Palette)
      && (selectedColor == "" || selectedColor in Palette)
      && 0 <= bubbleCount <= MaxBubbles && bubbleCount == pendingFades
      && points >= 0
    }

    constructor ()
      ensures Valid()
      ensures breathingPhase == Inhale && breathingCount == PhaseLength && !isBreathing
      ensures colorTherapyColors == [] && selectedColor == ""
      ensures bubbleCount == 0 && pendingFades == 0 && points == 0
    {
      breathingPhase := Inhale;
      breathingCount := PhaseLength;
      isBreathing := false;
      colorTherapyColors := [];
      selectedColor := "";
      bubbleCount := 0;
      pendingFades := 0;
      points := 0;
    }

    /** One firing of the one-second breathing interval, which runs only while a
        session is on. */
    method BreathingTick()
      requires Valid() && isBreathing
      modifies this
      ensures Valid() && isBreathing
      ensures Breath(breathingPhase, breathingCount) == Tick(old(Breath(breathingPhase, breathingCount)))
      ensures colorTherapyColors == old(colorTherapyColors) && selectedColor == old(selectedColor)
      ensures bubbleCount == old(bubbleCount) && pendingFades == old(pendingFades) && points == old(points)
    {
      var next := Tick(Breath(breathingPhase, breathingCount));
      breathingPhase := next.phase;
      breathingCount := next.count;
    }

    /** "Start Breathing": a session always starts inhaling with a full count. */
    method StartBreathing()
      requires Valid()
      modifies this
      ensures Valid() && isBreathing
      ensures Breath(breathingPhase, breathingCount) == FirstBreath
      ensures colorTherapyColors == old(colorTherapyColors) && selectedColor == old(selectedColor)
      ensures bubbleCount == old(bubbleCount) && pendingFades == old(pendingFades) && points == old(points)
    {
      isBreathing := true;
      breathingPhase := Inhale;
      breathingCount := PhaseLength;
    }

    /** "Complete Session": the session ends and earns ten points; the bubble
        keeps its phase and count. */
    method StopBreathing()
      requires Valid()
      modifies this
      ensures Valid() && !isBreathing
      ensures points == old(points) + SessionPoints
      ensures breathingPhase == old(breathingPhase) && breathingCount == old(breathingCount)
      ensures colorTherapyColors == old(colorTherapyColors) && selectedColor == old(selectedColor)
      ensures bubbleCount == old(bubbleCount) && pendingFades == old(pendingFades)
    {
      isBreathing := false;
      points := points + SessionPoints;
    }

    /** The breathing card's single button toggles the session. */
    method BreathingButton()
      requires Valid()
      modifies this
      ensures Valid() && isBreathing == !old(isBreathing)
      ensures old(isBreathing) ==> points == old(points) + SessionPoints
      ensures !old(isBreathing) ==> points == old(points) && Breath(breathingPhase, breathingCount) == FirstBreath
    {
      if isBreathing {
        StopBreathing();
      } else {
        StartBreathing();
      }
    }

    /** "Generate Calming Colors" / "New Colors" with `order` the random
        order: the grid shows its first six; the chosen colour is kept. */
    method GenerateColors(order: seq<nat>)
      requires Valid() && IsOrder(order, |Palette|)
      modifies this
      ensures Valid()
      ensures colorTherapyColors == TherapyColors(order)
      ensures selectedColor == old(selectedColor) && points == old(points)
      ensures isBreathing == old(isBreathing) && breathingPhase == old(breathingPhase) && breathingCount == old(breathingCount)
      ensures bubbleCount == old(bubbleCount) && pendingFades == old(pendingFades)
    {
      colorTherapyColors := TherapyColors(order);
    }

    /** A colour of the grid: it becomes the chosen colour and earns five points,
        however often it is chosen. */
    method SelectColor(c: string)
      requires Valid() && c in colorTherapyColors
      modifies this
      ensures Valid() && selectedColor == c && points == old(points) + ColorPoints
      ensures colorTherapyColors == old(colorTherapyColors)
      ensures isBreathing == old(isBreathing) && breathingPhase == old(breathingPhase) && breathingCount == old(breathingCount)
      ensures bubbleCount == old(bubbleCount) && pendingFades == old(pendingFades)
    {
      selectedColor := c;
      points := points + ColorPoints;
    }

    /** "Create Bubble", offered while the garden has fewer than ten: one bubble
        more, three points, and one more fade timer. */
    method CreateBubble()
      requires Valid() && bubbleCount < MaxBubbles
      modifies this
      ensures Valid()
      ensures bubbleCount == old(bubbleCount) + 1 && pendingFades == old(pendingFades) + 1
      ensures points == old(points) + BubblePoints
      ensures colorTherapyColors == old(colorTherapyColors) && selectedColor == old(selectedColor)
      ensures isBreathing == old(isBreathing) && breathingPhase == old(breathingPhase) && breathingCount == old(breathingCount)
    {
      bubbleCount := bubbleCount + 1;
      points := points + BubblePoints;
      pendingFades := pendingFades + 1;
    }

    /** A bubble's fade timer fires: the count drops by one, never below zero.
        Since every timer belongs to a bubble still shown, the floor at zero is
        never what decides the result. */
    method FadeBubble()
      requires Valid() && pendingFades > 0
      modifies this
      ensures Valid()
      ensures bubbleCount == old(bubbleCount) - 1 && pendingFades == old(pendingFades) - 1
      ensures points == old(points)
      ensures colorTherapyColors == old(colorTherapyColors) && selectedColor == old(selectedColor)
      ensures isBreathing == old(isBreathing) && breathingPhase == old(breathingPhase) && breathingCount == old(breathingCount)
    {
      bubbleCount := if bubbleCount - 1 < 0 then 0 else bubbleCount - 1;
      pendingFades := pendingFades - 1;
    }

    /** A zen square (any of the nine) earns two points. */
    method TapZenSquare()
      requires Valid()
      modifies this
      ensures Valid() && points == old(points) + ZenPoints
      ensures colorTherapyColors == old(colorTherapyColors) && selectedColor == old(selectedColor)
      ensures isBreathing == old(isBreathing) && breathingPhase == old(breathingPhase) && breathingCount == old(breathingCount)
      ensures bubbleCount == old(bubbleCount) && pendingFades == old(pendingFades)
    {
      points := points + ZenPoints;
    }

    /** "Add Mindful Moment" earns five points, so the mindful counter goes up by one. */
    method AddMindfulMoment()
      requires Valid()
      modifies this
      ensures Valid() && points == old(points) + MindfulPoints
      ensures MomentCount(points) == MomentCount(old(points)) + 1
      ensures colorTherapyColors == old(colorTherapyColors) && selectedColor == old(selectedColor)
      ensures isBreathing == old(isBreathing) && breathingPhase == old(breathingPhase) && breathingCount == old(breathingCount)
      ensures bubbleCount == old(bubbleCount) && pendingFades == old(pendingFades)
    {
      points := points + MindfulPoints;
    }
  }

  /** A session left running for `n` seconds shows the bubble at `Ticks(FirstBreath, n)`;
      when `n` is a whole number of breaths it is back at a full inhale. */
  method BreatheFor(n: nat) returns (shown: Breath)
    ensures shown == Ticks(FirstBreath, n) && InPhase(shown)
    ensures n % 12 == 0 ==> shown == FirstBreath
  {
    var page := new RelaxPage();
    page.StartBreathing();
    for k := 0 to n
      invariant page.Valid() && page.isBreathing
      invariant Breath(page.breathingPhase, page.breathingCount) == Ticks(FirstBreath, k)
    {
      TicksAdd(FirstBreath, k, 1);
      page.BreathingTick();
    }
    shown := Breath(page.breathingPhase, page.breathingCount);
    TicksStayInPhase(FirstBreath, n);
    if n % 12 == 0 {
      WholeBreaths(n / 12);
      assert n == 12 * (n / 12);
    }
  }

  /** Whole breaths bring a fresh session back to a full inhale. */
  lemma {:induction false} WholeBreaths(k: nat)
    ensures Ticks(FirstBreath, 12 * k) == FirstBreath
  {
    if k > 0 {
      WholeBreaths(k - 1);
      TicksAdd(FirstBreath, 12 * (k - 1), 12);
      BreathCycle(FirstBreath);
    }
  }
}
