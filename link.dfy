/**
 * The serial link as both controllers see it: a line written to the
 * firmware, the whitespace stripping of a reply line, and the scan that
 * picks the first candidate port that opens.
 */
module Link {
  import opened Wrappers

  /** What a command looks like on the wire: the text and one newline. */
  function Line(command: string): (w: string)
    ensures |w| == |command| + 1 && w[..|command|] == command && w[|command|] == '\n'
  {
    command + "\n"
  }

  /** Every command of `commands`, newline-terminated, in order. */
  function Lines(commands: seq<string>): (ws: seq<string>)
    ensures |ws| == |commands|
    ensures forall i :: 0 <= i < |commands| ==> ws[i] == Line(commands[i])
  {
    seq(|commands|, i requires 0 <= i < |commands| => Line(commands[i]))
  }

  // ---------------------------------------------------------------------
  // bytes.strip(): the ASCII whitespace Python removes from both ends
  // ---------------------------------------------------------------------

  predicate IsSpace(c: char)
  {
    c == ' ' || c == '\t' || c == '\n' || c == '\r' || c as int == 11 || c as int == 12
  }

  predicate AllSpace(s: string)
  {
    forall i :: 0 <= i < |s| ==> IsSpace(s[i])
  }

  /** The first position at or after `i` that is not whitespace, or `|s|`. */
  function SkipSpaces(s: string, i: nat): (k: nat)
    requires i <= |s|
    ensures i <= k <= |s|
    ensures forall j :: i <= j < k ==> IsSpace(s[j])
    ensures k < |s| ==> !IsSpace(s[k])
    decreases |s| - i
  {
    if i < |s| && IsSpace(s[i]) then SkipSpaces(s, i + 1) else i
  }

  /** The start of the whitespace run that ends at `j`. */
  function BackSpaces(s: string, j: nat): (k: nat)
    requires j <= |s|
    ensures k <= j
    ensures forall m :: k <= m < j ==> IsSpace(s[m])
    ensures 0 < k ==> !IsSpace(s[k - 1])
  {
    if 0 < j && IsSpace(s[j - 1]) then BackSpaces(s, j - 1) else j
  }

  /** Python's `bytes.strip()`: the reply line with surrounding whitespace removed. */
  function Strip(s: string): (r: string)
    ensures |r| <= |s|
    ensures r == [] <==> AllSpace(s)
    ensures r == [] || (!IsSpace(r[0]) && !IsSpace(r[|r| - 1]))
  {
    var a := SkipSpaces(s, 0);
    var b := BackSpaces(s, |s|);
    if b <= a then [] else s[a..b]
  }

  /**
   * Stripping recovers exactly the text between whitespace padding: with
   * the contract of `Strip`, this pins it down completely.
   */
  lemma StripUnpads(u: string, t: string, v: string)
    requires AllSpace(u) && AllSpace(v)
    requires t == [] || (!IsSpace(t[0]) && !IsSpace(t[|t| - 1]))
    ensures Strip(u + t + v) == t
  {
    var s := u + t + v;
    if t == [] {
      assert AllSpace(s) by {
        forall i | 0 <= i < |s| ensures IsSpace(s[i]) {
          if i < |u| { assert s[i] == u[i]; } else { assert s[i] == v[i - |u|]; }
        }
      }
    } else {
      var a, b := SkipSpaces(s, 0), BackSpaces(s, |s|);
      assert s[|u|] == t[0];
      assert s[|u| + |t| - 1] == t[|t| - 1];
      assert a == |u| && b == |u| + |t|;
      assert s[a..b] == t;
    }
  }

  /** Stripping twice is stripping once. */
  lemma StripIdempotent(s: string)
    ensures Strip(Strip(s)) == Strip(s)
  {
    var r := Strip(s);
    assert [] + r + [] == r;
    StripUnpads([], r, []);
  }

  // ---------------------------------------------------------------------
  // Port scan
  // ---------------------------------------------------------------------

  /**
   * The position of the first candidate port that opens, or `|ports|`
   * when none does.
   */
  function FirstOpenIndex(ports: seq<string>, opens: string -> bool): (k: nat)
    ensures k <= |ports|
    ensures forall j :: 0 <= j < k ==> !opens(ports[j])
    ensures k < |ports| ==> opens(ports[k])
  {
    if ports == [] || opens(ports[0]) then 0
    else 1 + FirstOpenIndex(ports[1..], opens)
  }

  /** The port a scan over `ports` selects, if any. */
  function Scan(ports: seq<string>, opens: string -> bool): (p: Option<string>)
    ensures p.None? <==> forall j :: 0 <= j < |ports| ==> !opens(ports[j])
    ensures p.Some? ==> opens(p.value)
  {
    var k := FirstOpenIndex(ports, opens);
    if k < |ports| then Some(ports[k]) else None
  }

  /** The ports a scan tries: every port up to and including the one that opens. */
  function Attempts(ports: seq<string>, opens: string -> bool): (tried: seq<string>)
    ensures tried <= ports
    ensures forall j :: 0 <= j < |tried| - 1 ==> !opens(tried[j])
    ensures |tried| < |ports| ==> tried != [] && opens(tried[|tried| - 1])
  {
    var k := FirstOpenIndex(ports, opens);
    if k < |ports| then ports[..k + 1] else ports
  }

  /** The port selected is the earliest one in the list that opens; no later port is tried. */
  lemma ScanSelectsFirst(ports: seq<string>, opens: string -> bool, k: nat)
    requires k < |ports| && opens(ports[k])
    requires forall j :: 0 <= j < k ==> !opens(ports[j])
    ensures Scan(ports, opens) == Some(ports[k])
    ensures Attempts(ports, opens) == ports[..k + 1]
  {
  }

  /** Two candidates where only the second opens: the scan selects the second after trying both. */
  lemma SecondPortSelected()
    ensures Scan(["/dev/ttyUSB0", "/dev/ttyUSB1"], p => p == "/dev/ttyUSB1") == Some("/dev/ttyUSB1")
    ensures Attempts(["/dev/ttyUSB0", "/dev/ttyUSB1"], p => p == "/dev/ttyUSB1") == ["/dev/ttyUSB0", "/dev/ttyUSB1"]
  {
    var ports := ["/dev/ttyUSB0", "/dev/ttyUSB1"];
    var opens := (p: string) => p == "/dev/ttyUSB1";
    assert ports[0] != "/dev/ttyUSB1" by { assert ports[0][11] == '0'; }
    ScanSelectsFirst(ports, opens, 1);
    assert ports[..2] == ports;
  }
}
