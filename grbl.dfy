/**
 * GRBLController: the keyboard-driven jog controller. It keeps an
 * authoritative current position (updated in place by relative jogs,
 * replaced by absolute moves and homing) and a per-axis maximum, and every
 * operation writes one or more lines to the serial link.
 */
module Grbl {
  import opened Wrappers
  import opened GCode
  import Link

  const Origin: seq<real> := [0.0, 0.0, 0.0]
  const DefaultMax: seq<real> := [200.0, 200.0, 200.0]
  /** Where `home` parks after the homing cycle, and where key `z` goes. */
  const ParkLocation: seq<real> := [99.8, 36.0, 0.0]
  /** Where key `m` goes. */
  const LimitLocation: seq<real> := [200.0, 200.0, 200.0]
  /** Millimetres per jog key press. */
  const JogStep: real := 20.0

  // ---------------------------------------------------------------------
  // Clamping and jogging
  // ---------------------------------------------------------------------

  function Max(a: real, b: real): real { if a < b then b else a }
  function Min(a: real, b: real): real { if b < a then b else a }

  /** `min(hi, max(0, v))`: saturate `v` into `[0, hi]`. */
  function Clamp(v: real, hi: real): (r: real)
    ensures 0.0 <= hi ==> 0.0 <= r <= hi
    ensures 0.0 <= v <= hi ==> r == v
    ensures 0.0 <= hi < v ==> r == hi
    ensures v < 0.0 <= hi ==> r == 0.0
    ensures hi < 0.0 ==> r == hi
  {
    Min(hi, Max(0.0, v))
  }

  /** An axis after a jog: moved by the delta and clamped if one was given, untouched otherwise. */
  function JogAxis(v: real, hi: real, delta: Option<real>): (r: real)
    ensures delta.None? ==> r == v
    ensures delta.Some? && 0.0 <= hi ==> 0.0 <= r <= hi
  {
    match delta
    case None => v
    case Some(d) => Clamp(v + d, hi)
  }

  /** The position after `move_to(dx, dy, dz)`. */
  function Jogged(p: seq<real>, hi: seq<real>, dx: Option<real>, dy: Option<real>, dz: Option<real>): (q: seq<real>)
    requires |p| == 3 && |hi| == 3
    ensures |q| == 3
    ensures forall k :: 0 <= k < 3 && Delta(k, dx, dy, dz).None? ==> q[k] == p[k]
  {
    [JogAxis(p[0], hi[0], dx), JogAxis(p[1], hi[1], dy), JogAxis(p[2], hi[2], dz)]
  }

  function Delta(k: nat, dx: Option<real>, dy: Option<real>, dz: Option<real>): Option<real>
    requires k < 3
  {
    if k == 0 then dx else if k == 1 then dy else dz
  }

  predicate InBounds(p: seq<real>, hi: seq<real>)
    requires |p| == 3 && |hi| == 3
  {
    forall k :: 0 <= k < 3 ==> 0.0 <= p[k] <= hi[k]
  }

  /**
   * A jog changes only the axes it is given: each of those lands in
   * `[0, max]` at `min(max, max(0, old + delta))`, every other axis keeps
   * its coordinate.
   */
  lemma JoggedAxes(p: seq<real>, hi: seq<real>, dx: Option<real>, dy: Option<real>, dz: Option<real>, k: nat)
    requires |p| == 3 && |hi| == 3 && k < 3
    ensures Delta(k, dx, dy, dz).None? ==> Jogged(p, hi, dx, dy, dz)[k] == p[k]
    ensures Delta(k, dx, dy, dz).Some? && 0.0 <= hi[k] ==> 0.0 <= Jogged(p, hi, dx, dy, dz)[k] <= hi[k]
    ensures Delta(k, dx, dy, dz).Some? ==>
      Jogged(p, hi, dx, dy, dz)[k] == Min(hi[k], Max(0.0, p[k] + Delta(k, dx, dy, dz).value))
  {
  }

  /** Jogging keeps an in-bounds position in bounds (for non-negative maxima). */
  lemma JogPreservesBounds(p: seq<real>, hi: seq<real>, dx: Option<real>, dy: Option<real>, dz: Option<real>)
    requires |p| == 3 && |hi| == 3 && InBounds(p, hi)
    ensures InBounds(Jogged(p, hi, dx, dy, dz), hi)
  {
    forall k | 0 <= k < 3 ensures 0.0 <= Jogged(p, hi, dx, dy, dz)[k] <= hi[k] {
      JoggedAxes(p, hi, dx, dy, dz, k);
    }
  }

  /** A jog by zero on an in-bounds position changes nothing. */
  lemma ZeroJogIsIdentity(p: seq<real>, hi: seq<real>)
    requires |p| == 3 && |hi| == 3 && InBounds(p, hi)
    ensures Jogged(p, hi, Some(0.0), Some(0.0), Some(0.0)) == p
  {
  }

  /** Clamping is saturating and idempotent: re-clamping a clamped value gives the same value. */
  lemma ClampIdempotent(v: real, hi: real)
    ensures Clamp(Clamp(v, hi), hi) == Clamp(v, hi)
  {
  }

  /** After a jog, a further zero jog of the same axes is a no-op. */
  lemma JogThenZeroJog(p: seq<real>, hi: seq<real>, dx: Option<real>, dy: Option<real>, dz: Option<real>)
    requires |p| == 3 && |hi| == 3
    requires forall k :: 0 <= k < 3 ==> 0.0 <= hi[k]
    ensures var q := Jogged(p, hi, dx, dy, dz);
      Jogged(q, hi, Zero(dx), Zero(dy), Zero(dz)) == q
  {
    var q := Jogged(p, hi, dx, dy, dz);
    forall k | 0 <= k < 3
      ensures Jogged(q, hi, Zero(dx), Zero(dy), Zero(dz))[k] == q[k]
    {
      JoggedAxes(p, hi, dx, dy, dz, k);
    }
  }

  /** The zero delta for an axis that was given one. */
  function Zero(d: Option<real>): Option<real>
  {
    MapOption(d, (_: real) => 0.0)
  }

  // ---------------------------------------------------------------------
  // Frames
  // ---------------------------------------------------------------------

  /** The absolute `G0` frame naming all three coordinates of `p`. */
  function FullFrame(fmt: Formatter, p: seq<real>): (f: string)
    requires |p| == 3
    ensures |f| >= 2 && f[..2] == "G0"
  {
    MotionFrame(fmt, Some(p[0]), Some(p[1]), Some(p[2]))
  }

  /** A full frame names every axis, in X, Y, Z order, with exactly the rendered coordinates. */
  lemma FullFrameCarriesPosition(fmt: Formatter, p: seq<real>)
    requires |p| == 3 && IsNumeralFormatter(fmt)
    ensures ParseMotion(FullFrame(fmt, p)) == Some(Fields(Some(fmt(p[0])), Some(fmt(p[1])), Some(fmt(p[2]))))
    ensures 'X' in FullFrame(fmt, p) && 'Y' in FullFrame(fmt, p) && 'Z' in FullFrame(fmt, p)
  {
    MotionFrameRoundTrip(fmt, Some(p[0]), Some(p[1]), Some(p[2]));
    MotionFrameMentionsExactlyPresentAxes(fmt, Some(p[0]), Some(p[1]), Some(p[2]));
  }

  /** The lines `home` writes: the homing cycle, then the move to the park location. */
  function HomeLines(fmt: Formatter): (ls: seq<string>)
    ensures |ls| == 2
  {
    [Link.Line("$H"), Link.Line(FullFrame(fmt, ParkLocation))]
  }

  /**
   * Homing writes the homing cycle first and then one full frame that
   * parks every axis at (99.8, 36, 0).
   */
  lemma HomeThenPark(fmt: Formatter)
    requires IsNumeralFormatter(fmt)
    ensures HomeLines(fmt)[0] == "$H\n"
    ensures HomeLines(fmt)[1] == Link.Line(FullFrame(fmt, ParkLocation))
    ensures ParseMotion(FullFrame(fmt, ParkLocation)) == Some(Fields(Some(fmt(99.8)), Some(fmt(36.0)), Some(fmt(0.0))))
  {
    FullFrameCarriesPosition(fmt, ParkLocation);
  }

  // ---------------------------------------------------------------------
  // Key dispatch
  // ---------------------------------------------------------------------

  /** What one line typed at the prompt asks for. */
  datatype Key =
    | GoHome
    | GoTo(location: seq<real>)
    | Jog(dx: Option<real>, dy: Option<real>, dz: Option<real>)
    | Exit
    | Ignored

  function LowerChar(c: char): char
  {
    if 'A' <= c <= 'Z' then (c as int + 32) as char else c
  }

  /** `str.lower()` on ASCII letters. */
  function Lower(s: string): (r: string)
    ensures |r| == |s|
    ensures forall i :: 0 <= i < |s| ==> !('A' <= r[i] <= 'Z')
    ensures forall i :: 0 <= i < |s| ==>
      if 'A' <= s[i] <= 'Z' then r[i] as int == s[i] as int + 32 else r[i] == s[i]
  {
    seq(|s|, i requires 0 <= i < |s| => LowerChar(s[i]))
  }

  const Keys: set<string> := {"h", "m", "z", "w", "s", "a", "d", "q", "e", "exit"}

  /** The command loop's `if`/`elif` chain on the lower-cased input. */
  function Decode(line: string): (k: Key)
    ensures k == Ignored <==> Lower(line) !in Keys
    ensures k == Exit <==> Lower(line) == "exit"
    ensures k.Jog? ==> |Lower(line)| == 1
  {
    var c := Lower(line);
    if c == "h" then GoHome
    else if c == "m" then GoTo(LimitLocation)
    else if c == "z" then GoTo(ParkLocation)
    else if c == "w" then Jog(Some(JogStep), None, None)
    else if c == "s" then Jog(Some(-JogStep), None, None)
    else if c == "a" then Jog(None, Some(JogStep), None)
    else if c == "d" then Jog(None, Some(-JogStep), None)
    else if c == "q" then Jog(None, None, Some(JogStep))
    else if c == "e" then Jog(None, None, Some(-JogStep))
    else if c == "exit" then Exit
    else Ignored
  }

  /** Each jog key moves exactly one axis by 20 mm, in the direction of its pair. */
  lemma JogKeys(line: string)
    ensures Lower(line) in {"w", "s"} <==> Decode(line).Jog? && Decode(line).dx.Some?
    ensures Lower(line) in {"a", "d"} <==> Decode(line).Jog? && Decode(line).dy.Some?
    ensures Lower(line) in {"q", "e"} <==> Decode(line).Jog? && Decode(line).dz.Some?
    ensures Decode(line).Jog? ==>
      var j := Decode(line);
      (if j.dx.Some? then 1 else 0) + (if j.dy.Some? then 1 else 0) + (if j.dz.Some? then 1 else 0) == 1
    ensures Decode(line).Jog? ==>
      var j := Decode(line);
      forall d :: d in [j.dx, j.dy, j.dz] && d.Some? ==> d.value == JogStep || d.value == -JogStep
  {
  }

  /** Upper-case input is dispatched like its lower-case form. */
  lemma DecodeIgnoresCase(line: string)
    ensures Decode(Lower(line)) == Decode(line)
  {
    assert Lower(Lower(line)) == Lower(line);
  }

  /** The action each key triggers. */
  lemma DispatchTable(line: string)
    ensures Lower(line) == "h" ==> Decode(line) == GoHome
    ensures Lower(line) == "m" ==> Decode(line) == GoTo([200.0, 200.0, 200.0])
    ensures Lower(line) == "z" ==> Decode(line) == GoTo([99.8, 36.0, 0.0])
    ensures Lower(line) == "w" ==> Decode(line) == Jog(Some(20.0), None, None)
    ensures Lower(line) == "s" ==> Decode(line) == Jog(Some(-20.0), None, None)
    ensures Lower(line) == "a" ==> Decode(line) == Jog(None, Some(20.0), None)
    ensures Lower(line) == "d" ==> Decode(line) == Jog(None, Some(-20.0), None)
    ensures Lower(line) == "q" ==> Decode(line) == Jog(None, None, Some(20.0))
    ensures Lower(line) == "e" ==> Decode(line) == Jog(None, None, Some(-20.0))
    ensures Lower(line) == "exit" ==> Decode(line) == Exit
  {
  }

  /**
   * Opposite jog keys undo each other when the axis has 20 mm of room:
   * `w` then `s` restores X, `a` then `d` restores Y, `q` then `e` restores Z.
   */
  lemma OppositeJogsCancel(p: seq<real>, hi: seq<real>, k: nat)
    requires |p| == 3 && |hi| == 3 && k < 3
    requires 0.0 <= p[k] && p[k] + JogStep <= hi[k]
    ensures var up, down := Decode(["w", "a", "q"][k]), Decode(["s", "d", "e"][k]);
      up.Jog? && down.Jog?
      && Jogged(Jogged(p, hi, up.dx, up.dy, up.dz), hi, down.dx, down.dy, down.dz) == p
  {
    var upKey, downKey := ["w", "a", "q"][k], ["s", "d", "e"][k];
    assert Lower(upKey) == upKey && Lower(downKey) == downKey;
    DispatchTable(upKey);
    DispatchTable(downKey);
    var up, down := Decode(upKey), Decode(downKey);
    var q := Jogged(p, hi, up.dx, up.dy, up.dz);
    JoggedAxes(p, hi, up.dx, up.dy, up.dz, k);
    assert q[k] == p[k] + JogStep;
    var r := Jogged(q, hi, down.dx, down.dy, down.dz);
    JoggedAxes(q, hi, down.dx, down.dy, down.dz, k);
    assert r[k] == p[k];
  }

  // ---------------------------------------------------------------------
  // The controller
  // ---------------------------------------------------------------------

  class GRBLController {
    const port: string
    const baudRate: int
    /** Rendering of coordinates into frame text. */
    const fmt: Formatter
    const maxPosition: seq<real>
    var currentPosition: array<real>
    /** Everything written to the serial link, one entry per write. */
    var sent: seq<string>

    ghost predicate Valid()
      reads this
    {
      currentPosition.Length == 3 && |maxPosition| == 3
    }

    function Position(): (p: seq<real>)
      reads this, currentPosition
      requires Valid()
      ensures |p| == 3
    {
      currentPosition[..]
    }

    /** The controller on an already opened port: at the origin, with 200 mm maxima, nothing written. */
    constructor (port: string, fmt: Formatter, baudRate: int := 115200)
      ensures Valid() && fresh(currentPosition)
      ensures this.port == port && this.baudRate == baudRate && this.fmt == fmt
      ensures Position() == Origin && maxPosition == DefaultMax && sent == []
    {
      this.port := port;
      this.baudRate := baudRate;
      this.fmt := fmt;
      maxPosition := DefaultMax;
      currentPosition := new real[3] [0.0, 0.0, 0.0];
      sent := [];
      new;
      assert currentPosition[..] == [0.0, 0.0, 0.0];
    }

    /** Construction opens the port first: there is no controller when it does not open. */
    static method Open(port: string, fmt: Formatter, opens: string -> bool, baudRate: int := 115200)
      returns (c: GRBLController?)
      ensures c != null <==> opens(port)
      ensures c != null ==>
        fresh(c) && c.Valid() && c.port == port && c.baudRate == baudRate && c.fmt == fmt
        && c.Position() == Origin && c.maxPosition == DefaultMax && c.sent == []
    {
      if opens(port) {
        c := new GRBLController(port, fmt, baudRate);
      } else {
        c := null;
      }
    }

    method SendCommand(command: string)
      modifies this`sent
      ensures sent == old(sent) + [Link.Line(command)]
    {
      sent := sent + [Link.Line(command)];
    }

    /** Absolute move: writes the frame for the location, then takes it as the position, unclamped. */
    method MoveToLocation(x: real, y: real, z: real)
      requires Valid()
      modifies this
      ensures Valid() && fresh(currentPosition)
      ensures Position() == [x, y, z]
      ensures sent == old(sent) + [Link.Line(FullFrame(fmt, [x, y, z]))]
    {
      SendCommand(MotionFrame(fmt, Some(x), Some(y), Some(z)));
      currentPosition := new real[3] [x, y, z];
      assert currentPosition[..] == [x, y, z];
    }

    /** The homing cycle, a reset of the position to the origin, then the park move. */
    method Home()
      requires Valid()
      modifies this
      ensures Valid() && fresh(currentPosition)
      ensures Position() == ParkLocation
      ensures sent == old(sent) + HomeLines(fmt)
    {
      SendCommand("$H");
      currentPosition := new real[3] [0.0, 0.0, 0.0];
      MoveToLocation(99.8, 36.0, 0.0);
    }

    /** Relative jog: each given axis moves by its delta, clamped to `[0, max]`, then the full frame is written. */
    method MoveTo(dx: Option<real>, dy: Option<real>, dz: Option<real>)
      requires Valid()
      modifies this`sent, currentPosition
      ensures Valid() && currentPosition == old(currentPosition)
      ensures Position() == Jogged(old(Position()), maxPosition, dx, dy, dz)
      ensures sent == old(sent) + [Link.Line(FullFrame(fmt, Position()))]
    {
      if dx.Some? {
        var target := Min(maxPosition[0], Max(0.0, currentPosition[0] + dx.value));
        currentPosition[0] := target;
      }
      if dy.Some? {
        var target := Min(maxPosition[1], Max(0.0, currentPosition[1] + dy.value));
        currentPosition[1] := target;
      }
      if dz.Some? {
        var target := Min(maxPosition[2], Max(0.0, currentPosition[2] + dz.value));
        currentPosition[2] := target;
      }
      var p := currentPosition;
      SendCommand(MotionFrame(fmt, Some(p[0]), Some(p[1]), Some(p[2])));
    }

    method DisableMotors()
      modifies this`sent
      ensures sent == old(sent) + [Link.Line("M84")]
    {
      SendCommand("M84");
    }

    /**
     * One pass of the command loop on one input line; `running` is false
     * when the loop stops.
     */
    method Step(line: string) returns (running: bool)
      requires Valid()
      modifies this, currentPosition
      ensures Valid()
      ensures running <==> Decode(line) != Exit
      ensures match Decode(line)
        case GoHome => Position() == ParkLocation && sent == old(sent) + HomeLines(fmt)
        case GoTo(l) => Position() == l && sent == old(sent) + [Link.Line(FullFrame(fmt, l))]
        case Jog(dx, dy, dz) =>
          Position() == Jogged(old(Position()), maxPosition, dx, dy, dz)
          && sent == old(sent) + [Link.Line(FullFrame(fmt, Position()))]
        case Exit => Position() == old(Position()) && sent == old(sent) + [Link.Line("M84")]
        case Ignored => currentPosition == old(currentPosition) && Position() == old(Position())
                        && sent == old(sent)
    {
      running := true;
      match Decode(line)
      case GoHome => Home();
      case GoTo(l) => MoveToLocation(l[0], l[1], l[2]);
      case Jog(dx, dy, dz) => MoveTo(dx, dy, dz);
      case Exit =>
        DisableMotors();
        running := false;
      case Ignored =>
    }
  }
}
