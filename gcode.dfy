/**
 * The `G0` rapid-motion frame both controllers send: the word `G0`
 * followed by ` X<x>`, ` Y<y>`, ` Z<z>` for the axes that carry a value,
 * always in X, Y, Z order. A parser for the same shape is the builder's
 * partner: parsing a built frame gives back exactly the rendered values.
 */
module GCode {
  import opened Wrappers

  /** How a coordinate is rendered (Python's `str` of an int or float). */
  type Formatter = real -> string

  /** The characters `str` of an int or float can produce: digits, sign, point, exponent, `inf`, `nan`. */
  predicate IsNumeralChar(c: char)
  {
    c in "0123456789+-.einfa"
  }

  predicate IsNumeral(t: string)
  {
    forall i :: 0 <= i < |t| ==> IsNumeralChar(t[i])
  }

  /** A formatter whose every rendering is numeral text: no space, no axis letter, no newline. */
  ghost predicate IsNumeralFormatter(fmt: Formatter)
  {
    forall v :: IsNumeral(fmt(v))
  }

  /** The word ` X<v>` for a present axis, nothing for an absent one. */
  function Word(letter: char, v: Option<real>, fmt: Formatter): string
  {
    match v
    case None => ""
    case Some(c) => [' ', letter] + fmt(c)
  }

  /** The frame `move_to` builds: `G0`, then one word per present axis in X, Y, Z order. */
  function MotionFrame(fmt: Formatter, x: Option<real>, y: Option<real>, z: Option<real>): (f: string)
    ensures |f| >= 2 && f[..2] == "G0"
  {
    "G0" + Word('X', x, fmt) + Word('Y', y, fmt) + Word('Z', z, fmt)
  }

  // ---------------------------------------------------------------------
  // Parsing a frame back
  // ---------------------------------------------------------------------

  /** The rendered value of each axis a frame mentions. */
  datatype Fields = Fields(x: Option<string>, y: Option<string>, z: Option<string>)

  const NoFields := Fields(None, None, None)

  /** 0, 1, 2 for `X`, `Y`, `Z`; 3 for any other character. */
  function AxisIndex(c: char): (k: nat)
    ensures k <= 3
    ensures k < 3 <==> c in "XYZ"
  {
    if c == 'X' then 0 else if c == 'Y' then 1 else if c == 'Z' then 2 else 3
  }

  /** `f` with axis `k` set to the value text `t`. */
  function SetField(f: Fields, k: nat, t: string): (g: Fields)
    requires k < 3
  {
    if k == 0 then f.(x := Some(t)) else if k == 1 then f.(y := Some(t)) else f.(z := Some(t))
  }

  /** The first position at or after `i` holding `c`, or `|s|` when there is none. */
  function IndexOf(s: string, c: char, i: nat): (j: nat)
    requires i <= |s|
    ensures i <= j <= |s|
    ensures j < |s| ==> s[j] == c
    ensures forall k :: i <= k < j ==> s[k] != c
    decreases |s| - i
  {
    if i == |s| || s[i] == c then i else IndexOf(s, c, i + 1)
  }

  /**
   * The axis words after `G0`. Each word is a space, an axis letter and the
   * value text up to the next space; axes must come in strictly increasing
   * order starting at axis `from`, so no axis appears twice.
   */
  function ParseWords(s: string, from: nat): Option<Fields>
    decreases |s|
  {
    if s == [] then Some(NoFields)
    else if |s| < 2 || s[0] != ' ' then None
    else
      var k := AxisIndex(s[1]);
      if k < from || k == 3 then None
      else
        var j := IndexOf(s, ' ', 2);
        match ParseWords(s[j..], k + 1)
        case None => None
        case Some(f) => Some(SetField(f, k, s[2..j]))
  }

  function ParseMotion(s: string): Option<Fields>
  {
    if |s| >= 2 && s[..2] == "G0" then ParseWords(s[2..], 0) else None
  }

  // ---------------------------------------------------------------------
  // Properties of the frame
  // ---------------------------------------------------------------------

  function Rendered(v: Option<real>, fmt: Formatter): Option<string>
  {
    MapOption(v, fmt)
  }

  lemma RenderedNumeral(fmt: Formatter, v: real)
    requires IsNumeralFormatter(fmt)
    ensures IsNumeral(fmt(v))
  {
  }

  lemma NumeralHasNo(t: string, c: char)
    requires IsNumeral(t) && !IsNumeralChar(c)
    ensures c !in t
  {
  }

  /** A word mentions its own letter when present, and no other non-numeral character. */
  lemma WordMentions(letter: char, v: Option<real>, fmt: Formatter, c: char)
    requires IsNumeralFormatter(fmt) && !IsNumeralChar(c) && c != ' '
    ensures c in Word(letter, v, fmt) <==> v.Some? && c == letter
  {
    if v.Some? {
      RenderedNumeral(fmt, v.value);
      NumeralHasNo(fmt(v.value), c);
      assert Word(letter, v, fmt) == [' ', letter] + fmt(v.value);
    }
  }

  lemma FrameMentions(fmt: Formatter, x: Option<real>, y: Option<real>, z: Option<real>, c: char)
    requires IsNumeralFormatter(fmt) && !IsNumeralChar(c) && c != 'G' && c != ' '
    ensures c in MotionFrame(fmt, x, y, z)
        <==> (x.Some? && c == 'X') || (y.Some? && c == 'Y') || (z.Some? && c == 'Z')
  {
    WordMentions('X', x, fmt, c);
    WordMentions('Y', y, fmt, c);
    WordMentions('Z', z, fmt, c);
    assert c !in "G0";
  }

  /**
   * A frame mentions an axis letter exactly when that axis was given,
   * and it never contains a newline: it is one protocol line.
   */
  lemma MotionFrameMentionsExactlyPresentAxes(fmt: Formatter, x: Option<real>, y: Option<real>, z: Option<real>)
    requires IsNumeralFormatter(fmt)
    ensures 'X' in MotionFrame(fmt, x, y, z) <==> x.Some?
    ensures 'Y' in MotionFrame(fmt, x, y, z) <==> y.Some?
    ensures 'Z' in MotionFrame(fmt, x, y, z) <==> z.Some?
    ensures '\n' !in MotionFrame(fmt, x, y, z)
  {
    FrameMentions(fmt, x, y, z, 'X');
    FrameMentions(fmt, x, y, z, 'Y');
    FrameMentions(fmt, x, y, z, 'Z');
    FrameMentions(fmt, x, y, z, '\n');
  }

  /** With no axis at all the frame is the bare word `G0`. */
  lemma MotionFrameEmpty(fmt: Formatter)
    ensures MotionFrame(fmt, None, None, None) == "G0"
  {
  }

  /** One word, followed by the rest of the frame, parses as that axis plus the rest. */
  lemma ParseOneWord(letter: char, t: string, rest: string, from: nat)
    requires AxisIndex(letter) < 3 && from <= AxisIndex(letter)
    requires IsNumeral(t)
    requires rest == [] || rest[0] == ' '
    ensures ParseWords([' ', letter] + t + rest, from)
         == match ParseWords(rest, AxisIndex(letter) + 1)
            case None => None
            case Some(f) => Some(SetField(f, AxisIndex(letter), t))
  {
    var s := [' ', letter] + t + rest;
    var n := 2 + |t|;
    assert s[2..n] == t && s[n..] == rest;
    assert IndexOf(s, ' ', 2) == n;
  }

  lemma ParseZ(fmt: Formatter, z: Option<real>, from: nat)
    requires IsNumeralFormatter(fmt) && from <= 2
    ensures ParseWords(Word('Z', z, fmt), from) == Some(Fields(None, None, Rendered(z, fmt)))
  {
    if z.Some? {
      assert Word('Z', z, fmt) == [' ', 'Z'] + fmt(z.value) + [];
      RenderedNumeral(fmt, z.value);
      ParseOneWord('Z', fmt(z.value), [], from);
    }
  }

  lemma ParseYZ(fmt: Formatter, y: Option<real>, z: Option<real>, from: nat)
    requires IsNumeralFormatter(fmt) && from <= 1
    ensures ParseWords(Word('Y', y, fmt) + Word('Z', z, fmt), from)
         == Some(Fields(None, Rendered(y, fmt), Rendered(z, fmt)))
  {
    var wz := Word('Z', z, fmt);
    if y.Some? {
      ParseZ(fmt, z, 2);
      RenderedNumeral(fmt, y.value);
      ParseOneWord('Y', fmt(y.value), wz, from);
    } else {
      assert Word('Y', y, fmt) + wz == wz;
      ParseZ(fmt, z, from);
    }
  }

  lemma ParseXYZ(fmt: Formatter, x: Option<real>, y: Option<real>, z: Option<real>)
    requires IsNumeralFormatter(fmt)
    ensures ParseWords(Word('X', x, fmt) + (Word('Y', y, fmt) + Word('Z', z, fmt)), 0)
         == Some(Fields(Rendered(x, fmt), Rendered(y, fmt), Rendered(z, fmt)))
  {
    var wyz := Word('Y', y, fmt) + Word('Z', z, fmt);
    ParseYZ(fmt, y, z, if x.Some? then 1 else 0);
    if x.Some? {
      RenderedNumeral(fmt, x.value);
      ParseOneWord('X', fmt(x.value), wyz, 0);
    } else {
      assert Word('X', x, fmt) + wyz == wyz;
    }
  }

  /** A frame is `G0` followed by its words. */
  lemma FrameSplits(fmt: Formatter, x: Option<real>, y: Option<real>, z: Option<real>)
    ensures var s := MotionFrame(fmt, x, y, z);
      |s| >= 2 && s[..2] == "G0" && s[2..] == Word('X', x, fmt) + (Word('Y', y, fmt) + Word('Z', z, fmt))
  {
    var wx, wy, wz := Word('X', x, fmt), Word('Y', y, fmt), Word('Z', z, fmt);
    assert "G0" + wx + wy + wz == "G0" + (wx + (wy + wz));
    AfterG0("G0", wx + (wy + wz));
  }

  lemma AfterG0(g0: string, words: string)
    requires g0 == "G0"
    ensures |g0 + words| >= 2 && (g0 + words)[..2] == "G0" && (g0 + words)[2..] == words
  {
  }

  lemma ParseAfterG0(s: string)
    requires |s| >= 2 && s[..2] == "G0"
    ensures ParseMotion(s) == ParseWords(s[2..], 0)
  {
  }

  /**
   * Parsing a built frame recovers, axis by axis, exactly the values that
   * were given: present axes with their rendering, absent axes absent.
   */
  lemma MotionFrameRoundTrip(fmt: Formatter, x: Option<real>, y: Option<real>, z: Option<real>)
    requires IsNumeralFormatter(fmt)
    ensures ParseMotion(MotionFrame(fmt, x, y, z))
         == Some(Fields(Rendered(x, fmt), Rendered(y, fmt), Rendered(z, fmt)))
  {
    FrameSplits(fmt, x, y, z);
    ParseAfterG0(MotionFrame(fmt, x, y, z));
    ParseXYZ(fmt, x, y, z);
  }

  /** A word for an axis that does not come after the previous one is refused, and so is all that follows it. */
  lemma OutOfOrderRefused(fmt: Formatter, first: char, second: char, a: real, b: real)
    requires IsNumeralFormatter(fmt)
    requires AxisIndex(first) < 3 && AxisIndex(second) <= AxisIndex(first)
    ensures ParseMotion("G0" + Word(first, Some(a), fmt) + Word(second, Some(b), fmt)) == None
  {
    var w2 := Word(second, Some(b), fmt);
    assert w2 == [' ', second] + fmt(b);
    RenderedNumeral(fmt, a);
    var s := "G0" + Word(first, Some(a), fmt) + w2;
    assert s[..2] == "G0" && s[2..] == [' ', first] + fmt(a) + w2;
    ParseAfterG0(s);
    ParseOneWord(first, fmt(a), w2, 0);
    assert w2[1] == second;
  }
}
