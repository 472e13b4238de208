# GRBL motion-controller wrappers, modelled in Dafny

This project models the two Python wrappers around a GRBL motion-controller
firmware that position a probe stage under a camera. Both talk to the firmware
over a line-oriented serial link.

- `GRBLController` (`Ci24/devices/cnc.py`) is a keyboard-driven jog controller.
  It keeps an authoritative current position and a per-axis maximum of 200 mm.
  A relative jog clamps each given axis into `[0, max]` and re-sends a full
  `G0 X.. Y.. Z..` frame. An absolute move takes the given triple unclamped.
  Homing sends `$H`, resets the position to the origin, then parks at
  `(99.8, 36, 0)`. One step of the command loop maps single keys to these
  operations.
- `CNCController` (`app/tools/cnc.py`) is the controller kept in the
  application's `app/tools` package (no screen of the application calls it).
  It scans candidate ports and keeps the first that opens. It then sends the
  reset sequence and a table of 34 `$n=v` settings. It homes with `$H` then
  `$X`, and builds `G0` frames that name only the axes given. It moves to a
  tag in two frames: X/Y first, then Z.

The serial link is modelled as follows:

- an append-only log of the strings written;
- an oracle `opens: string -> bool` that says which ports open;
- for `CNCController`, a reply source `device: seq<string> -> string` that
  gives the firmware's reply line as a function of everything written so far.

Python's rendering of a coordinate (`str` of an int or float) is an abstract
`fmt: real -> string` given to each controller. The lemmas about frame shape
assume only that `fmt` produces numeral text: digits, `+ - . e`, `inf`, `nan`.

Files (one module each):

- `wrappers.dfy`: `Option`, `Result`, `Outcome`.
- `link.dfy`: the written line, `bytes.strip()`, and the port scan.
- `gcode.dfy`: the `G0` frame builder, and a parser that is its partner.
- `grbl.dfy`: clamping, jogging, key dispatch, and class `GRBLController`.
- `cnc.dfy`: the settings table, the tag move, and class `CNCController`.

Two points about what the code does, which the model follows exactly:

- The code has no status polling, no feed hold, no `G92` zeroing, no
  `home_executed` flag, and no clamping in `CNCController`; neither does the model.
- `CNCController.connect` tests its handle with `if not self.grbl`. A pyserial
  port object is always truthy, and `disconnect` closes the handle without
  clearing it. So a later `connect` in which no port opens does not raise the
  "no port" exception. It writes the reset sequence to the old, closed handle,
  which fails as a port-not-open error. `Connect` models exactly this.
  "No port opened, nothing written, no handle" holds for a controller that
  never connected.

## Model

| member | source | states |
|---|---|---|
| `Link.Line` | app/tools/cnc.py:50 | a command goes on the wire as its text followed by exactly one newline |
| `Link.Lines` | app/tools/cnc.py:44-45 | a run of commands becomes their newline-terminated lines, in the same order |
| `Link.SkipSpaces` | app/tools/cnc.py:52 | the end of the leading whitespace run: all whitespace before it, a non-whitespace character at it |
| `Link.BackSpaces` | app/tools/cnc.py:52 | the start of the trailing whitespace run: all whitespace after it, a non-whitespace character just before it |
| `Link.Strip` | app/tools/cnc.py:52 | the stripped reply is empty iff the line is all whitespace, and otherwise neither starts nor ends with whitespace |
| `Link.StripUnpads` | app/tools/cnc.py:52 | stripping whitespace padding off any text without outer whitespace gives back exactly that text |
| `Link.StripIdempotent` | app/tools/cnc.py:52 | stripping an already stripped reply changes nothing |
| `Link.FirstOpenIndex` | app/tools/cnc.py:12-19 | the index of the first port that opens: every earlier port fails to open |
| `Link.Scan` | app/tools/cnc.py:12-22 | a port is selected iff some candidate opens, and the selected port opens |
| `Link.Attempts` | app/tools/cnc.py:12-19 | the ports tried are a prefix of the list; all but the last fail; the scan stops at the first that opens |
| `Link.ScanSelectsFirst` | app/tools/cnc.py:12-19 | when port k opens and all earlier ones do not, port k is selected and no later port is tried |
| `Link.SecondPortSelected` | app/tools/cnc.py:12-19 | with two candidates of which only the second opens, both are tried and the second is selected |
| `GCode.MotionFrame` | app/tools/cnc.py:63-69 | the frame built by repeated `+=` always starts with `G0`; its shape is stated by `GCode.MotionFrameRoundTrip` and `GCode.MotionFrameMentionsExactlyPresentAxes` |
| `GCode.MotionFrameMentionsExactlyPresentAxes` | app/tools/cnc.py:61-70 | the frame mentions an axis letter iff that axis was given, and it holds no newline |
| `GCode.MotionFrameEmpty` | app/tools/cnc.py:63 | with no axes the frame is just `G0` |
| `GCode.MotionFrameRoundTrip` | app/tools/cnc.py:61-70 | parsing a built frame gives back each given axis's rendered value and no absent axis; this implies X, Y, Z order |
| `GCode.OutOfOrderRefused` | app/tools/cnc.py:63-69 | the parser refuses a frame whose axes are out of X, Y, Z order or repeated, so the builder's order is a real constraint |
| `GCode.IndexOf` | app/tools/cnc.py:63-69 | helper of the partner parser for the frame built at these lines (the source has no such search): the first position holding a character, with none before it |
| `GCode.ParseOneWord` | app/tools/cnc.py:65 | one ` <axis><value>` word followed by the rest of a frame parses as that axis plus the rest |
| `Grbl.Clamp` | Ci24/devices/cnc.py:30 | `min(max, max(0, v))` lies in `[0, max]`, keeps in-range values, and saturates at each bound |
| `Grbl.JogAxis` | Ci24/devices/cnc.py:28-31 | an axis given no delta keeps its value; one given a delta lands in `[0, max]` |
| `Grbl.Jogged` | Ci24/devices/cnc.py:28-39 | the position after a jog has three axes, and every axis passed as `None` is unchanged; per-axis values are stated by `Grbl.JoggedAxes` |
| `Grbl.JoggedAxes` | Ci24/devices/cnc.py:28-39 | a given axis becomes `min(max, max(0, old + d))` within `[0, max]`; an axis passed as `None` keeps its coordinate |
| `Grbl.JogPreservesBounds` | Ci24/devices/cnc.py:28-39 | a jog keeps an in-bounds position in bounds |
| `Grbl.ZeroJogIsIdentity` | Ci24/devices/cnc.py:28-39 | a zero delta on every axis of an in-bounds position leaves it unchanged |
| `Grbl.ClampIdempotent` | Ci24/devices/cnc.py:30 | re-clamping a clamped value gives the same value |
| `Grbl.JogThenZeroJog` | Ci24/devices/cnc.py:28-39 | after any jog, a zero jog of the same axes changes nothing |
| `Grbl.FullFrame` | Ci24/devices/cnc.py:42-43 | the jog and absolute-move frame is a `G0` frame; `Grbl.FullFrameCarriesPosition` states it names all three coordinates |
| `Grbl.FullFrameCarriesPosition` | Ci24/devices/cnc.py:42 | the jog frame names X, Y and Z with exactly the rendered current coordinates |
| `Grbl.HomeLines` | Ci24/devices/cnc.py:16-24 | homing writes exactly two lines; their content is stated by `Grbl.HomeThenPark` |
| `Grbl.HomeThenPark` | Ci24/devices/cnc.py:16-24 | homing writes `$H` first and then one full frame parking X, Y, Z at 99.8, 36, 0 |
| `Grbl.Lower` | Ci24/devices/cnc.py:64 | lower-casing keeps the length, maps each ASCII capital to its lower-case letter, and leaves every other character unchanged |
| `Grbl.Decode` | Ci24/devices/cnc.py:66-106 | input is ignored iff its lower-case form is none of the ten keys; it ends the loop iff that form is `exit` |
| `Grbl.JogKeys` | Ci24/devices/cnc.py:78-100 | `w`/`s` jog X, `a`/`d` jog Y, `q`/`e` jog Z; each jog key moves one axis by plus or minus 20 |
| `Grbl.DispatchTable` | Ci24/devices/cnc.py:66-106 | `h` homes, `m` goes to (200,200,200), `z` goes to (99.8,36,0), `w`/`s` jog X by +20/-20, `a`/`d` jog Y by +20/-20, `q`/`e` jog Z by +20/-20, `exit` exits |
| `Grbl.OppositeJogsCancel` | Ci24/devices/cnc.py:78-100 | with 20 mm of room on the axis, `w` then `s` restores X, `a` then `d` restores Y, `q` then `e` restores Z |
| `Grbl.DecodeIgnoresCase` | Ci24/devices/cnc.py:64 | input is dispatched like its lower-case form |
| `Grbl.GRBLController.constructor` | Ci24/devices/cnc.py:5-8 | a new controller is at `[0,0,0]` with maxima `[200,200,200]` and has written nothing; the baud rate defaults to 115200 |
| `Grbl.GRBLController.Open` | Ci24/devices/cnc.py:5-6 | a controller exists iff its port opens; it keeps the port, the formatter and the baud rate (default 115200) |
| `Grbl.GRBLController.SendCommand` | Ci24/devices/cnc.py:10-14 | appends the command and a newline to the log |
| `Grbl.GRBLController.MoveTo` | Ci24/devices/cnc.py:26-45 | the position is updated in place to the clamped jog; exactly one full `G0` frame of the new position is written |
| `Grbl.GRBLController.MoveToLocation` | Ci24/devices/cnc.py:47-53 | writes the frame for the triple, then takes the triple as the position without clamping |
| `Grbl.GRBLController.Home` | Ci24/devices/cnc.py:16-24 | writes `$H` and then the park frame for `(99.8, 36, 0)`, and ends at that position |
| `Grbl.GRBLController.DisableMotors` | Ci24/devices/cnc.py:56-58 | writes `M84` |
| `Grbl.GRBLController.Step` | Ci24/devices/cnc.py:63-106 | one loop pass: the action of the decoded key; `exit` writes `M84` and stops; any other input changes and writes nothing |
| `Cnc.InitTableBounds` | app/tools/cnc.py:25-42 | the reset sequence is two CR-LF pairs; the settings table has 34 frames, from `$0=10` to `$132=200.000` |
| `Cnc.TagMoveFrames` | app/tools/cnc.py:73-81 | the tag move is exactly two frames; their content and order are stated by `Cnc.TagMoveSendsXYBeforeZ` |
| `Cnc.TagMoveSendsXYBeforeZ` | app/tools/cnc.py:73-81 | the tag move sends two frames: the first carries only X and Y, the second only Z |
| `Cnc.CNCController.constructor` | app/tools/cnc.py:5-8 | a new controller has no handle and has written nothing; the baud rate defaults to 115200 |
| `Cnc.CNCController.WriteError` | app/tools/cnc.py:50 | writing without a handle is a not-connected error; with a closed handle it is a port-not-open error |
| `Cnc.CNCController.Write` | app/tools/cnc.py:25 | the data is appended iff the handle is set and open; otherwise the matching error is raised and nothing is written |
| `Cnc.CNCController.SendCommand` | app/tools/cnc.py:48-52 | writes the command and a newline, and returns the stripped reply line; without a writable handle it fails and writes nothing |
| `Cnc.CNCController.SendAll` | app/tools/cnc.py:44-45 | writes every command in order, each newline-terminated, or fails before writing any |
| `Cnc.CNCController.InitializeGrbl` | app/tools/cnc.py:32-46 | writes exactly the 34 settings frames in table order, or fails before writing any |
| `Cnc.CNCController.Connect` | app/tools/cnc.py:10-30 | tries ports in order and keeps the first that opens; if none opens and no handle exists, fails and writes nothing; on success writes the reset sequence and then the settings frames |
| `Cnc.CNCController.GoHome` | app/tools/cnc.py:54-58 | writes `$H` then `$X` and nothing else; fails and writes nothing when the link is not writable |
| `Cnc.CNCController.MoveTo` | app/tools/cnc.py:61-70 | writes exactly one frame: `G0` plus a word for each given axis, in X, Y, Z order |
| `Cnc.CNCController.MoveToTag` | app/tools/cnc.py:73-81 | writes the X/Y frame and then the Z frame, and nothing else; a failed first write sends neither |
| `Cnc.CNCController.Disconnect` | app/tools/cnc.py:83-87 | does nothing without a handle; otherwise closes it and keeps it set; writes nothing |

## Left out

- Serial I/O is abstract: a write log, a port-open oracle and a reply oracle. The log does not record which port each write went to. The `timeout=1` and baud-rate arguments have no effect in the model.
- `time.sleep` delays are left out. They are timing only, and the code never confirms that a move completed.
- `flushInput` after the reset sequence is left out: the reply oracle keeps no buffered input to discard.
- `_send_command` in `Ci24/devices/cnc.py` returns `readlines()`. Every caller only prints that reply, so it is not modelled.
- The blocking `input()` loop and all `print` output are left out. `GRBLController.Step` models one pass of the loop.
- Number rendering: Python's `str` gives `20` for an int and `20.0` for a float. The model renders every coordinate with one abstract formatter over reals, so that distinction is not captured.
- Floating point: coordinates are exact reals, so IEEE rounding of `old + delta` is not modelled.
- `Grbl.Lower`: it models `str.lower()` on ASCII only. No non-ASCII character lower-cases to any of the ten keys, so dispatch is unaffected.
- `CNCController.SendCommand`: the port in `app/tools/cnc.py` is opened without a timeout, so `readline()` blocks until the firmware sends a newline and returns at most one line. The device oracle always answers and stands for that single reply line; the model does not capture the blocking wait.
- `max_position` is never changed by the code, so it is an immutable sequence rather than a list.
- Other exceptions pyserial can raise (a `ValueError` for a bad baud rate, I/O errors during a write) are left out. The model raises only the missing-handle and closed-port errors.
