/**
 * The tick-driven animations of the terminal interface: a frame spinner, a blinking text
 * cursor and a one-shot checkmark. The monotonic clock is a parameter: `now` is an instant
 * in milliseconds, and `Elapsed` is `Instant::duration_since`, which saturates at zero.
 */
module SpinnerWidgets {

  function Elapsed(now: int, since: int): (d: nat)
    ensures now >= since ==> d == now - since
    ensures now < since ==> d == 0
  {
    if now >= since then now - since else 0
  }

  const BRAILLE_FRAMES: seq<string> := ["\U{280B}", "\U{2819}", "\U{2839}", "\U{2838}", "\U{283C}", "\U{2834}", "\U{2826}", "\U{2827}", "\U{2807}", "\U{280F}"]
  const LINE_FRAMES: seq<string> := ["-", "\\", "|", "/"]
  const CHECKMARK_FRAMES: seq<string> := ["", "\U{2713}", "\U{2713}", "\U{2713}"]

  const SPINNER_FRAME_MS: nat := 80
  const LINE_FRAME_MS: nat := 100
  const BLINK_INTERVAL_MS: nat := 530
  const CHECKMARK_FRAME_MS: nat := 100

  /** The frame after `f` in a cycle of `n` frames. */
  function NextFrame(f: nat, n: nat): (g: nat)
    requires n > 0
    ensures g < n
    ensures f + 1 < n ==> g == f + 1
    ensures f + 1 == n ==> g == 0
  {
    (f + 1) % n
  }

  /** `k` advancing ticks from frame `f`. */
  function Advance(f: nat, n: nat, k: nat): (g: nat)
    requires n > 0
    ensures g < n
  {
    if k == 0 then f % n else NextFrame(Advance(f, n, k - 1), n)
  }

  /** Euclidean division is unique: a quotient and remainder in range are the ones `/` and `%` give. */
  lemma {:induction false} DivModUnique(x: int, n: int, q: int, r: int)
    requires n > 0 && 0 <= r < n && x == q * n + r
    ensures x / n == q && x % n == r
  {
    var q', r' := x / n, x % n;
    assert (q - q') * n == r' - r;
    MulSign(q - q', n);
  }

  lemma {:induction false} MulSign(d: int, n: int)
    requires n > 0
    ensures d >= 1 ==> d * n >= n
    ensures d <= -1 ==> d * n <= -n
  {
  }

  /** One step further around the cycle. */
  lemma {:induction false} ModSucc(x: nat, n: nat)
    requires n > 0
    ensures (x + 1) % n == if x % n + 1 == n then 0 else x % n + 1
  {
    var q, r := x / n, x % n;
    if r + 1 < n {
      DivModUnique(x + 1, n, q, r + 1);
    } else {
      assert x + 1 == (q + 1) * n;
      DivModUnique(x + 1, n, q + 1, 0);
    }
  }

  /** `k` advancing ticks move the frame `k` places around the cycle. */
  lemma {:induction false} AdvanceIsModular(f: nat, n: nat, k: nat)
    requires n > 0
    ensures Advance(f, n, k) == (f + k) % n
  {
    if k > 0 {
      AdvanceIsModular(f, n, k - 1);
      ModSucc(f + k - 1, n);
    }
  }

  /** After as many advancing ticks as there are frames, the spinner shows its starting frame again. */
  lemma {:induction false} FullCycleReturns(f: nat, n: nat)
    requires f < n
    ensures Advance(f, n, n) == f
  {
    AdvanceIsModular(f, n, n);
    DivModUnique(f + n, n, 1, f);
  }

  /** No two braille frames are the same, so a tick that advances the spinner changes what it shows. */
  lemma {:induction false} BrailleFrameChanges(f: nat)
    requires f < |BRAILLE_FRAMES|
    ensures BRAILLE_FRAMES[NextFrame(f, |BRAILLE_FRAMES|)] != BRAILLE_FRAMES[f]
  {
    var g := NextFrame(f, |BRAILLE_FRAMES|);
    assert BRAILLE_FRAMES[g][0] != BRAILLE_FRAMES[f][0];
  }

  class Spinner {
    var frames: seq<string>
    var currentFrame: nat
    var lastUpdate: int
    var frameDuration: nat

    ghost predicate Valid()
      reads this
    {
      |frames| > 0 && currentFrame < |frames|
    }

    /** `Spinner::new`, and also `Spinner::dots`, which builds the same spinner. */
    constructor (now: int)
      ensures Valid()
      ensures frames == BRAILLE_FRAMES && |frames| == 10 && currentFrame == 0
      ensures lastUpdate == now && frameDuration == SPINNER_FRAME_MS
    {
      frames := BRAILLE_FRAMES;
      currentFrame := 0;
      lastUpdate := now;
      frameDuration := SPINNER_FRAME_MS;
    }

    constructor Line(now: int)
      ensures Valid()
      ensures frames == LINE_FRAMES && |frames| == 4 && currentFrame == 0
      ensures lastUpdate == now && frameDuration == LINE_FRAME_MS
    {
      frames := LINE_FRAMES;
      currentFrame := 0;
      lastUpdate := now;
      frameDuration := LINE_FRAME_MS;
    }

    /** Advances one frame when a frame duration has passed and says whether it did. */
    method Tick(now: int) returns (changed: bool)
      requires Valid()
      modifies this
      ensures Valid()
      ensures changed <==> Elapsed(now, old(lastUpdate)) >= frameDuration
      ensures changed ==> currentFrame == NextFrame(old(currentFrame), |frames|) && lastUpdate == now
      ensures !changed ==> currentFrame == old(currentFrame) && lastUpdate == old(lastUpdate)
      ensures frames == old(frames) && frameDuration == old(frameDuration)
    {
      if Elapsed(now, lastUpdate) >= frameDuration {
        currentFrame := (currentFrame + 1) % |frames|;
        lastUpdate := now;
        changed := true;
      } else {
        changed := false;
      }
    }

    function Frame(): (s: string)
      reads this
      requires Valid()
      ensures s in frames
    {
      frames[currentFrame]
    }

    method Reset(now: int)
      requires Valid()
      modifies this
      ensures Valid()
      ensures currentFrame == 0 && lastUpdate == now
      ensures frames == old(frames) && frameDuration == old(frameDuration)
    {
      currentFrame := 0;
      lastUpdate := now;
    }
  }

  class BlinkingCursor {
    var visible: bool
    var lastBlink: int
    var blinkInterval: nat

    constructor (now: int)
      ensures visible && lastBlink == now && blinkInterval == BLINK_INTERVAL_MS
    {
      visible := true;
      lastBlink := now;
      blinkInterval := BLINK_INTERVAL_MS;
    }

    /** Toggles visibility exactly when a blink interval has passed. */
    method Tick(now: int) returns (changed: bool)
      modifies this
      ensures changed <==> Elapsed(now, old(lastBlink)) >= blinkInterval
      ensures changed ==> visible == !old(visible) && lastBlink == now
      ensures !changed ==> visible == old(visible) && lastBlink == old(lastBlink)
      ensures blinkInterval == old(blinkInterval)
    {
      if Elapsed(now, lastBlink) >= blinkInterval {
        visible := !visible;
        lastBlink := now;
        changed := true;
      } else {
        changed := false;
      }
    }

    function IsVisible(): bool
      reads this
    {
      visible
    }

    /** `show`; `reset` has the same effect and is the same method here. */
    method Show(now: int)
      modifies this
      ensures visible && lastBlink == now && blinkInterval == old(blinkInterval)
    {
      visible := true;
      lastBlink := now;
    }
  }

  class CheckmarkAnimation {
    var frames: seq<string>
    var currentFrame: nat
    var completed: bool
    var lastUpdate: int
    var frameDuration: nat

    ghost predicate Valid()
      reads this
    {
      |frames| > 0 && currentFrame < |frames|
    }

    constructor (now: int)
      ensures Valid()
      ensures frames == CHECKMARK_FRAMES && |frames| == 4 && currentFrame == 0 && !completed
      ensures lastUpdate == now && frameDuration == CHECKMARK_FRAME_MS
    {
      frames := CHECKMARK_FRAMES;
      currentFrame := 0;
      completed := false;
      lastUpdate := now;
      frameDuration := CHECKMARK_FRAME_MS;
    }

    method Start(now: int)
      requires Valid()
      modifies this
      ensures Valid()
      ensures currentFrame == 0 && !completed && lastUpdate == now
      ensures frames == old(frames) && frameDuration == old(frameDuration)
    {
      currentFrame := 0;
      completed := false;
      lastUpdate := now;
    }

    /**
     * A due tick moves to the next frame and reports a change; a due tick at the last frame
     * marks the animation completed and reports none; a completed animation never changes.
     */
    method Tick(now: int) returns (changed: bool)
      requires Valid()
      modifies this
      ensures Valid()
      ensures old(currentFrame) <= currentFrame <= |frames| - 1
      ensures old(completed) ==> !changed && currentFrame == old(currentFrame) && completed && lastUpdate == old(lastUpdate)
      ensures !old(completed) && Elapsed(now, old(lastUpdate)) < frameDuration ==>
                !changed && currentFrame == old(currentFrame) && !completed && lastUpdate == old(lastUpdate)
      ensures !old(completed) && Elapsed(now, old(lastUpdate)) >= frameDuration && old(currentFrame) < |frames| - 1 ==>
                changed && currentFrame == old(currentFrame) + 1 && !completed && lastUpdate == now
      ensures !old(completed) && Elapsed(now, old(lastUpdate)) >= frameDuration && old(currentFrame) == |frames| - 1 ==>
                !changed && currentFrame == old(currentFrame) && completed && lastUpdate == old(lastUpdate)
      ensures frames == old(frames) && frameDuration == old(frameDuration)
    {
      if completed {
        return false;
      }
      if Elapsed(now, lastUpdate) >= frameDuration {
        if currentFrame < |frames| - 1 {
          currentFrame := currentFrame + 1;
          lastUpdate := now;
          changed := true;
        } else {
          completed := true;
          changed := false;
        }
      } else {
        changed := false;
      }
    }

    function Frame(): (s: string)
      reads this
      requires Valid()
      ensures s in frames
    {
      frames[currentFrame]
    }

    function IsCompleted(): bool
      reads this
    {
      completed
    }
  }
}
