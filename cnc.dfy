/**
 * CNCController: the controller kept in the application's `app/tools`
 * package. It scans candidate
 * ports for the first that opens, resets and configures the firmware with
 * a fixed table of settings, homes and unlocks, builds `G0` frames naming
 * only the axes given, and moves to a tag in two phases, X/Y before Z.
 */
module Cnc {
  import opened Wrappers
  import opened GCode
  import Link

  /** The exceptions the controller's operations end with. */
  datatype LinkError =
    | NoPortOpened   // `connect` found no port and had no earlier handle
    | NotConnected   // a write through a handle that was never set
    | PortNotOpen    // a write through a handle that was closed

  /** A serial handle: the port it was opened on and whether it is still open. */
  datatype Handle = Handle(port: string, isOpen: bool)

  /** The blank-line sequence written to wake the firmware before configuring it. */
  const ResetSequence: string := "\r\n\r\n"

  /** The firmware settings `initialize_grbl` sends, in order. */
  const InitCommands: seq<string> := [
    "$0=10", "$1=255", "$2=0", "$3=1", "$4=0", "$5=0",
    "$6=0", "$10=18", "$11=0.010", "$12=0.002", "$13=0",
    "$20=0", "$21=0", "$22=1", "$23=3", "$24=100", "$25=2000.000",
    "$26=250", "$27=2", "$30=1000", "$31=0", "$32=0",
    "$100=40", "$101=80", "$102=120", "$110=4000.000", "$111=4000.000",
    "$112=800", "$120=50.000", "$121=50.000", "$122=50.000",
    "$130=200.000", "$131=200.000", "$132=200.000"
  ]

  /** The reset is two CR-LF pairs; the table holds 34 frames, from `$0=10` to `$132=200.000`. */
  lemma InitTableBounds()
    ensures ResetSequence == ['\r', '\n', '\r', '\n']
    ensures |InitCommands| == 34
    ensures InitCommands[0] == "$0=10" && InitCommands[33] == "$132=200.000"
  {
  }

  // ---------------------------------------------------------------------
  // The two-phase tag move
  // ---------------------------------------------------------------------

  /** The frames `move_to_tag` sends: X and Y together, then Z alone. */
  function TagMoveFrames(fmt: Formatter, x: real, y: real, z: real): (fs: seq<string>)
    ensures |fs| == 2
  {
    [MotionFrame(fmt, Some(x), Some(y), None), MotionFrame(fmt, None, None, Some(z))]
  }

  /**
   * The tag move sends exactly two frames; the first moves X and Y to the
   * tag and leaves Z alone, the second moves only Z. So Z never moves
   * before X and Y have been sent.
   */
  lemma TagMoveSendsXYBeforeZ(fmt: Formatter, x: real, y: real, z: real)
    requires IsNumeralFormatter(fmt)
    ensures |TagMoveFrames(fmt, x, y, z)| == 2
    ensures ParseMotion(TagMoveFrames(fmt, x, y, z)[0]) == Some(Fields(Some(fmt(x)), Some(fmt(y)), None))
    ensures ParseMotion(TagMoveFrames(fmt, x, y, z)[1]) == Some(Fields(None, None, Some(fmt(z))))
    ensures forall i :: 0 <= i < 2 ==>
      ('Z' in TagMoveFrames(fmt, x, y, z)[i] <==> i == 1)
      && ('X' in TagMoveFrames(fmt, x, y, z)[i] <==> i == 0)
      && ('Y' in TagMoveFrames(fmt, x, y, z)[i] <==> i == 0)
  {
    MotionFrameRoundTrip(fmt, Some(x), Some(y), None);
    MotionFrameRoundTrip(fmt, None, None, Some(z));
    MotionFrameMentionsExactlyPresentAxes(fmt, Some(x), Some(y), None);
    MotionFrameMentionsExactlyPresentAxes(fmt, None, None, Some(z));
  }

  // ---------------------------------------------------------------------
  // The controller
  // ---------------------------------------------------------------------

  class CNCController {
    const serialPorts: seq<string>
    const baudRate: int
    /** Rendering of coordinates into frame text. */
    const fmt: Formatter
    /** The firmware's reply line, as a function of everything written to it so far. */
    const device: seq<string> -> string
    var grbl: Option<Handle>
    /** Everything written to the serial link, one entry per write. */
    var wire: seq<string>
    /** The ports `connect` has tried to open, in order. */
    ghost var attempted: seq<string>

    constructor (serialPorts: seq<string>, fmt: Formatter, device: seq<string> -> string, baudRate: int := 115200)
      ensures this.serialPorts == serialPorts && this.baudRate == baudRate
      ensures this.fmt == fmt && this.device == device
      ensures grbl == None && wire == [] && attempted == []
    {
      this.serialPorts := serialPorts;
      this.baudRate := baudRate;
      this.fmt := fmt;
      this.device := device;
      grbl := None;
      wire := [];
      attempted := [];
    }

    /** A write goes through only on a handle that is set and open. */
    predicate Writable()
      reads this
    {
      grbl.Some? && grbl.value.isOpen
    }

    /** The exception a write raises when the link is not writable. */
    function WriteError(): (e: LinkError)
      reads this
      ensures e != NoPortOpened
      ensures e == NotConnected <==> grbl.None?
    {
      if grbl.None? then NotConnected else PortNotOpen
    }

    method Write(data: string) returns (r: Outcome<LinkError>)
      modifies this`wire
      ensures Writable() ==> r == Pass && wire == old(wire) + [data]
      ensures !Writable() ==> r == Fail(WriteError()) && wire == old(wire)
    {
      if grbl.None? {
        return Fail(NotConnected);
      }
      if !grbl.value.isOpen {
        return Fail(PortNotOpen);
      }
      wire := wire + [data];
      r := Pass;
    }

    /** Writes the command and a newline, then returns the reply line stripped of surrounding whitespace. */
    method SendCommand(command: string) returns (r: Result<string, LinkError>)
      modifies this`wire
      ensures Writable() ==> wire == old(wire) + [Link.Line(command)] && r == Ok(Link.Strip(device(wire)))
      ensures !Writable() ==> wire == old(wire) && r == Err(WriteError())
    {
      var w := Write(Link.Line(command));
      if w.Fail? {
        return Err(w.error);
      }
      r := Ok(Link.Strip(device(wire)));
    }

    /** Sends each command in order, stopping at the first failed write. */
    method SendAll(commands: seq<string>) returns (r: Outcome<LinkError>)
      requires commands != []
      modifies this`wire
      ensures Writable() ==> r == Pass && wire == old(wire) + Link.Lines(commands)
      ensures !Writable() ==> r == Fail(WriteError()) && wire == old(wire)
    {
      var i := 0;
      while i < |commands|
        invariant 0 <= i <= |commands|
        invariant wire == old(wire) + Link.Lines(commands[..i])
        invariant 0 < i ==> Writable()
      {
        var reply := SendCommand(commands[i]);
        if reply.Err? {
          return Fail(reply.error);
        }
        assert commands[..i + 1] == commands[..i] + [commands[i]];
        i := i + 1;
      }
      assert commands[..i] == commands;
      r := Pass;
    }

    /** Sends every settings frame of the table, in order. */
    method InitializeGrbl() returns (r: Outcome<LinkError>)
      modifies this`wire
      ensures Writable() ==> r == Pass && wire == old(wire) + Link.Lines(InitCommands)
      ensures !Writable() ==> r == Fail(WriteError()) && wire == old(wire)
    {
      r := SendAll(InitCommands);
    }

    /**
     * Tries the candidate ports in order and keeps the first that opens;
     * then resets the firmware and sends the settings table.
     */
    method Connect(opens: string -> bool) returns (r: Outcome<LinkError>)
      modifies this
      ensures attempted == old(attempted) + Link.Attempts(serialPorts, opens)
      ensures grbl == match Link.Scan(serialPorts, opens)
                      case Some(p) => Some(Handle(p, true))
                      case None => old(grbl)
      ensures grbl.None? ==> r == Fail(NoPortOpened) && wire == old(wire)
      ensures grbl.Some? && !grbl.value.isOpen ==> r == Fail(PortNotOpen) && wire == old(wire)
      ensures Writable() ==> r == Pass && wire == old(wire) + [ResetSequence] + Link.Lines(InitCommands)
    {
      var i := 0;
      while i < |serialPorts|
        invariant 0 <= i <= |serialPorts|
        invariant forall j :: 0 <= j < i ==> !opens(serialPorts[j])
        invariant grbl == old(grbl) && wire == old(wire)
        invariant attempted == old(attempted) + serialPorts[..i]
      {
        attempted := attempted + [serialPorts[i]];
        if opens(serialPorts[i]) {
          grbl := Some(Handle(serialPorts[i], true));
          Link.ScanSelectsFirst(serialPorts, opens, i);
          assert serialPorts[..i + 1] == serialPorts[..i] + [serialPorts[i]];
          break;
        }
        i := i + 1;
      }
      if i == |serialPorts| {
        assert serialPorts[..i] == serialPorts;
      }
      if grbl.None? {
        return Fail(NoPortOpened);
      }
      r := Write(ResetSequence);
      if r.Fail? {
        return;
      }
      // The input buffer is flushed here; replies are not buffered in this model.
      r := InitializeGrbl();
    }

    /** The homing cycle `$H`, then the unlock `$X`. */
    method GoHome() returns (r: Outcome<LinkError>)
      modifies this`wire
      ensures Writable() ==> r == Pass && wire == old(wire) + [Link.Line("$H"), Link.Line("$X")]
      ensures !Writable() ==> r == Fail(WriteError()) && wire == old(wire)
    {
      var reply := SendCommand("$H");
      if reply.Err? {
        return Fail(reply.error);
      }
      reply := SendCommand("$X");
      match reply
      case Err(e) => r := Fail(e);
      case Ok(_) => r := Pass;
    }

    /** Builds `G0` plus one word per given axis and sends it. */
    method MoveTo(x: Option<real>, y: Option<real>, z: Option<real>) returns (r: Outcome<LinkError>)
      modifies this`wire
      ensures Writable() ==> r == Pass && wire == old(wire) + [Link.Line(MotionFrame(fmt, x, y, z))]
      ensures !Writable() ==> r == Fail(WriteError()) && wire == old(wire)
    {
      var command := "G0";
      if x.Some? {
        command := command + " X" + fmt(x.value);
      }
      ghost var afterX := command;
      assert afterX == "G0" + Word('X', x, fmt);
      if y.Some? {
        command := command + " Y" + fmt(y.value);
      }
      ghost var afterY := command;
      assert afterY == afterX + Word('Y', y, fmt);
      if z.Some? {
        command := command + " Z" + fmt(z.value);
      }
      assert command == afterY + Word('Z', z, fmt);
      var reply := SendCommand(command);
      r := if reply.Err? then Fail(reply.error) else Pass;
    }

    /** Moves X and Y to the tag first, then Z. */
    method MoveToTag(x: real, y: real, z: real) returns (r: Outcome<LinkError>)
      modifies this`wire
      ensures Writable() ==> r == Pass && wire == old(wire) + Link.Lines(TagMoveFrames(fmt, x, y, z))
      ensures !Writable() ==> r == Fail(WriteError()) && wire == old(wire)
    {
      r := MoveTo(Some(x), Some(y), None);
      if r.Fail? {
        return;
      }
      r := MoveTo(None, None, Some(z));
    }

    /** Closes the handle if there is one; the handle itself stays set. */
    method Disconnect()
      modifies this`grbl
      ensures grbl == match old(grbl)
                      case None => None
                      case Some(h) => Some(Handle(h.port, false))
      ensures !Writable()
    {
      if grbl.Some? {
        grbl := Some(Handle(grbl.value.port, false));
      }
    }
  }
}
