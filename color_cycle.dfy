/**
 * The colour cycle of the welcome banner and the pulse of a highlighted list entry: frame
 * counters advanced by the interface's tick, read back as a colour and as an on/off flag.
 */
module ColorCycleWidgets {

  datatype Color = Cyan | Blue | Magenta | Red | Yellow | Green

  /** The banner colours; the last repeats the first so the cycle wraps smoothly. */
  const CYCLE_COLORS: seq<Color> := [Cyan, Blue, Magenta, Red, Yellow, Green, Cyan]

  /** Each colour is held for this many ticks. */
  const FRAMES_PER_COLOR: nat := 4

  const PULSE_FRAMES: nat := 20

  /** The colour shown at `frame`: one colour per four frames, clamped to the last colour. */
  function ColorAt(colors: seq<Color>, frame: nat): (c: Color)
    requires |colors| > 0
    ensures frame / FRAMES_PER_COLOR < |colors| ==> c == colors[frame / FRAMES_PER_COLOR]
    ensures frame / FRAMES_PER_COLOR >= |colors| ==> c == colors[|colors| - 1]
  {
    var index := frame / FRAMES_PER_COLOR;
    colors[if index < |colors| - 1 then index else |colors| - 1]
  }

  /** On the banner cycle every frame the counter can reach names a colour without clamping. */
  lemma {:induction false} BannerColorsHeldFourFrames(k: nat, j: nat)
    requires k < |CYCLE_COLORS| && j < FRAMES_PER_COLOR
    ensures ColorAt(CYCLE_COLORS, FRAMES_PER_COLOR * k + j) == CYCLE_COLORS[k]
    ensures ColorAt(CYCLE_COLORS, 0) == Cyan
  {
    DivFour(k, j);
  }

  lemma {:induction false} DivFour(k: nat, j: nat)
    requires j < 4
    ensures (4 * k + j) / 4 == k
  {
  }

  /** On- and off-frames of the pulse: two of three in the first half, every other one in the second. */
  function PulseHighlighted(frame: nat, maxFrames: nat): (b: bool)
    ensures frame < maxFrames / 2 ==> (b <==> frame % 3 != 0)
    ensures frame >= maxFrames / 2 ==> (b <==> frame % 2 == 0)
  {
    if frame < maxFrames / 2 then frame % 3 != 0 else frame % 2 == 0
  }

  class ColorCycle {
    var frame: nat
    var colors: seq<Color>

    ghost predicate Valid()
      reads this
    {
      |colors| > 0 && frame < |colors| * FRAMES_PER_COLOR
    }

    constructor ()
      ensures Valid() && frame == 0 && colors == CYCLE_COLORS
    {
      frame := 0;
      colors := CYCLE_COLORS;
    }

    method Tick()
      requires Valid()
      modifies this
      ensures Valid() && colors == old(colors)
      ensures frame == (old(frame) + 1) % (|colors| * FRAMES_PER_COLOR)
    {
      frame := (frame + 1) % (|colors| * FRAMES_PER_COLOR);
    }

    function CurrentColor(): (c: Color)
      reads this
      requires Valid()
      ensures c in colors
    {
      ColorAt(colors, frame)
    }

    method Reset()
      modifies this
      ensures frame == 0 && colors == old(colors)
    {
      frame := 0;
    }
  }

  class PulsingSelection {
    var frame: nat
    var maxFrames: nat

    ghost predicate Valid()
      reads this
    {
      maxFrames > 0 && frame < maxFrames
    }

    constructor ()
      ensures Valid() && frame == 0 && maxFrames == PULSE_FRAMES
    {
      frame := 0;
      maxFrames := PULSE_FRAMES;
    }

    method Tick()
      requires Valid()
      modifies this
      ensures Valid() && maxFrames == old(maxFrames)
      ensures frame == (old(frame) + 1) % maxFrames
    {
      frame := (frame + 1) % maxFrames;
    }

    function IsHighlighted(): bool
      reads this
    {
      PulseHighlighted(frame, maxFrames)
    }

    method Reset()
      modifies this
      ensures frame == 0 && maxFrames == old(maxFrames)
    {
      frame := 0;
    }
  }

  /** Over one pulse of twenty frames the selection is lit on exactly these frames. */
  lemma PulsePattern()
    ensures forall f: nat :: f < PULSE_FRAMES ==>
      (PulseHighlighted(f, PULSE_FRAMES) <==> f in {1, 2, 4, 5, 7, 8, 10, 12, 14, 16, 18})
  {
  }
}
