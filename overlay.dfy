// Full-width announcement banners (src/overlay.rs) and the sparks that run
// along their edges while they are shown.

module Overlays {
  import opened Geometry
  import opened Particles

  const BANNER_HEIGHT: real := 120.0
  /** A visible banner emits sparks on every sixth call. */
  const CADENCE: int := 6
  const SPARK_SIZE: real := 12.0
  const SPARK_SPEED: real := 50.0

  /** Rust's `%` on `i32`: the remainder of a division truncated toward
      zero, which takes the sign of the dividend. */
  function TruncRem(a: int, b: int): (r: int)
    requires b > 0
    ensures a >= 0 ==> 0 <= r < b
    ensures a < 0 ==> -b < r <= 0
  {
    if a >= 0 then a % b else -((-a) % b)
  }

  /** Whether the call that brings the frame counter to `frame` emits:
      `frame % 6 < 1`. */
  predicate Emits(frame: int) {
    TruncRem(frame, CADENCE) < 1
  }

  /** Number of emitting calls among the `n` calls that follow frame `f`,
      that is, for the frames f + 1 .. f + n. */
  function EmitCount(f: int, n: nat): nat {
    if n == 0 then 0 else EmitCount(f, n - 1) + (if Emits(f + n) then 1 else 0)
  }

  /** From any reachable frame, exactly one of the next six calls on a
      visible banner emits. */
  lemma {:induction false} OncePerSixCalls(f: int)
    requires f >= 0
    ensures EmitCount(f, 6) == 1
  {
    var r := f % 6;
    EmitsAt(f, 1);
    EmitsAt(f, 2);
    EmitsAt(f, 3);
    EmitsAt(f, 4);
    EmitsAt(f, 5);
    EmitsAt(f, 6);
    assert EmitCount(f, 1) == (if r == 5 then 1 else 0);
    assert EmitCount(f, 2) == EmitCount(f, 1) + (if r == 4 then 1 else 0);
    assert EmitCount(f, 3) == EmitCount(f, 2) + (if r == 3 then 1 else 0);
    assert EmitCount(f, 4) == EmitCount(f, 3) + (if r == 2 then 1 else 0);
    assert EmitCount(f, 5) == EmitCount(f, 4) + (if r == 1 then 1 else 0);
    assert EmitCount(f, 6) == EmitCount(f, 5) + (if r == 0 then 1 else 0);
  }

  /** The call n steps after frame f emits exactly when n completes f's
      remainder to six. */
  lemma EmitsAt(f: int, n: nat)
    requires f >= 0 && 1 <= n <= 6
    ensures Emits(f + n) <==> f % 6 + n == 6
  {
    var q, r := f / 6, f % 6;
    assert f + n == 6 * q + (r + n);
    if r + n < 6 {
      assert (f + n) % 6 == r + n;
    } else {
      assert f + n == 6 * (q + 1) + (r + n - 6);
      assert (f + n) % 6 == r + n - 6;
    }
  }

  /** The character of decimal digit `d`. */
  function Digit(d: nat): (c: char)
    requires d < 10
    ensures '0' <= c <= '9' && c as int - '0' as int == d
  {
    (d + '0' as int) as char
  }

  /** The decimal text of `n` (`format!("{}", n)`): digits only, and no
      leading zero unless `n` is zero. */
  function Decimal(n: nat): (s: string)
    ensures |s| >= 1
    ensures forall i :: 0 <= i < |s| ==> '0' <= s[i] <= '9'
    ensures s[0] == '0' ==> n == 0
  {
    if n < 10 then [Digit(n)] else Decimal(n / 10) + [Digit(n % 10)]
  }

  /** The number a string of decimal digits denotes. */
  function DecimalValue(s: string): nat
    requires forall i :: 0 <= i < |s| ==> '0' <= s[i] <= '9'
  {
    if s == [] then 0 else 10 * DecimalValue(s[..|s| - 1]) + (s[|s| - 1] as int - '0' as int)
  }

  /** Reading back the decimal text gives the number again. */
  lemma {:induction false} DecimalRoundTrip(n: nat)
    ensures DecimalValue(Decimal(n)) == n
  {
    if n >= 10 {
      DecimalRoundTrip(n / 10);
      var s := Decimal(n);
      assert s[..|s| - 1] == Decimal(n / 10);
    }
  }

  class Overlay {
    var text: string
    var color: Color
    var visible: bool
    var height: real
    /** Calls to `Particles` made while visible (`i32`). */
    var frame: int

    /** `Overlay::game_over`. */
    constructor GameOver()
      ensures text == "GAME OVER!" && color == Named("RED")
      ensures visible && height == BANNER_HEIGHT && frame == 0
    {
      text := "GAME OVER!";
      color := Named("RED");
      visible := true;
      height := BANNER_HEIGHT;
      frame := 0;
    }

    /** `Overlay::pause`. */
    constructor Pause()
      ensures text == "Paused" && color == Named("YELLOW")
      ensures visible && height == BANNER_HEIGHT && frame == 0
    {
      text := "Paused";
      color := Named("YELLOW");
      visible := true;
      height := BANNER_HEIGHT;
      frame := 0;
    }

    /** `Overlay::powerup`. */
    constructor PowerUp()
      ensures text == "Pick two" && color == Named("GREEN")
      ensures visible && height == BANNER_HEIGHT && frame == 0
    {
      text := "Pick two";
      color := Named("GREEN");
      visible := true;
      height := BANNER_HEIGHT;
      frame := 0;
    }

    /** `Overlay::wave`: the banner announcing wave `nb`. */
    constructor Wave(nb: nat)
      ensures text == "Wave " + Decimal(nb)
      ensures DecimalValue(text[|"Wave "|..]) == nb
      ensures color == Named("ORANGE")
      ensures visible && height == BANNER_HEIGHT && frame == 0
    {
      var caption := "Wave " + Decimal(nb);
      assert caption[5..] == Decimal(nb);
      DecimalRoundTrip(nb);
      text := caption;
      color := Named("ORANGE");
      visible := true;
      height := BANNER_HEIGHT;
      frame := 0;
    }

    /** The two edge sparks: one entering from the left edge along the
        banner's lower border heading right (angle 0), one from the right
        edge along its upper border heading left (angle 180). */
    function Sparks(env: Env): (ps: seq<Particle>)
      reads this
      ensures |ps| == 2
      ensures ps[0].pos.x == 0.0 && ps[0].angle == 0.0
      ensures ps[1].pos.x == env.size.x && ps[1].angle == 180.0
      ensures ps[0].color == color && ps[1].color == color
    {
      var shape := Shard(SPARK_SIZE / SPARK_SPEED, 2.5, true);
      [ Particle(Vec(0.0, (env.size.y + height) / 2.0), SPARK_SPEED, 0.0, shape, color),
        Particle(Vec(env.size.x, (env.size.y - height) / 2.0), SPARK_SPEED, 180.0, shape, color) ]
    }

    /** `Overlay::particles`: a hidden banner does nothing; a visible one
        counts the call and emits its two sparks when the new count is a
        multiple of six. Text, colour, visibility and height never change. */
    method Particles(env: Env) returns (ps: seq<Particle>)
      modifies this`frame
      ensures !visible ==> ps == [] && frame == old(frame)
      ensures visible ==> frame == old(frame) + 1
      ensures visible ==> ps == (if Emits(frame) then Sparks(env) else [])
      ensures text == old(text) && color == old(color) && visible == old(visible) && height == old(height)
    {
      if !visible {
        return [];
      }
      frame := frame + 1;
      if TruncRem(frame, CADENCE) < 1 {
        ps := Sparks(env);
      } else {
        ps := [];
      }
    }
  }
}
