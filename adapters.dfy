/** The two GPIB bridge adapters (hp8903.py:122-421) over the serial port
    of module `Serial`. Both have the same polling `read`; they differ in the
    line settings, in the controller commands the Galvant adapter issues and
    in its framing of every write with a trailing newline. */
module Adapters {
  import opened Py
  import opened Serial
  import opened Polling

  /** National Instruments GPIB-232CV-A (hp8903.py:122-255): a plain serial
      pass-through; the instrument address is set by DIP switches. */
  class NiGpib232cvA {
    /** Stored by the constructor and never read: the address is not
        programmable on this device. */
    const gpibAddr: Option<int>
    var devName: Option<string>
    var ser: SerialPort?
    /** The fastest rate the device supports. */
    const baud: nat := 38400
    var buffer: seq<char>

    /** `is_open`: a port was opened and is still open. */
    predicate IsOpen()
      reads this, ser
    {
      ser != null && ser.isOpen
    }

    /** `__init__` (hp8903.py:123-131): the address argument is stored, and
        the adapter starts closed with an empty buffer. */
    constructor (gpibAddr: Option<int> := None)
      ensures !IsOpen()
      ensures this.gpibAddr == gpibAddr && devName == None && ser == null && buffer == []
    {
      this.gpibAddr := gpibAddr;
      devName := None;
      ser := null;
      buffer := [];
    }

    /** `open` (hp8903.py:133-150): opens `port`, the device named `dev_name`,
        at 38400 baud with 7 data bits and, when it opened, discards any
        received input. */
    method Open(port: SerialPort) returns (ok: bool)
      modifies this, port
      ensures ser == port && devName == Some(port.path)
      ensures ok == port.present && IsOpen() == ok
      ensures port.baud == 38400 && port.byteSize == 7
      ensures port.WireState() == if ok then old(port.WireState()).(input := []) else old(port.WireState())
      ensures port.written == old(port.written)
      ensures buffer == old(buffer)
    {
      devName := Some(port.path);
      ser := port;
      port.Open(baud, 7);
      if IsOpen() {
        port.FlushInput();
      } else {
        return false;
      }
      return true;
    }

    /** `close` (hp8903.py:161-165): closes an open port; always succeeds. */
    method Close() returns (ok: bool)
      modifies ser
      ensures ok && !IsOpen()
      ensures ser != null ==> ser.WireState() == old(ser.WireState()) && ser.written == old(ser.written)
    {
      if IsOpen() {
        ser.Close();
      }
      return true;
    }

    /** `write` (hp8903.py:167-175): the data goes out unchanged and its
        length is returned; on a closed adapter nothing is sent and 0 is
        returned. */
    method Write(data: string) returns (n: nat)
      modifies ser
      ensures IsOpen() == old(IsOpen())
      ensures old(IsOpen()) ==> ser.written == old(ser.written) + [data] && n == |data|
      ensures !old(IsOpen()) ==> n == 0 && (ser != null ==> ser.written == old(ser.written))
      ensures ser != null ==>
        ser.WireState() == old(ser.WireState()) && ser.baud == old(ser.baud) && ser.byteSize == old(ser.byteSize)
    {
      if IsOpen() {
        n := ser.Write(data);
      } else {
        return 0;
      }
    }

    /** `read` (hp8903.py:177-231): `None` stands for `(False, None)`. A
        closed adapter fails at once and keeps its buffer; otherwise the
        buffer is reset and the polling read of module `Polling` runs. */
    method Read(msgLen: int := 0, timeout: int := 500, endChar: char := '\n') returns (reply: Option<string>)
      modifies this, ser
      ensures ser == old(ser) && IsOpen() == old(IsOpen())
      ensures devName == old(devName)
      ensures !old(IsOpen()) ==>
        reply == None && buffer == old(buffer) &&
        (ser != null ==> ser.WireState() == old(ser.WireState()) && ser.written == old(ser.written))
      ensures old(IsOpen()) ==>
        var f := ReadOutcome(ser.clock, msgLen, timeout, endChar, old(ser.WireState()));
        reply == f.result && buffer == f.buffer && ser.WireState() == f.wire && ser.written == old(ser.written)
    {
      if !IsOpen() {
        return None;
      }
      buffer := [];
      reply, buffer := PollRead(ser, msgLen, timeout, endChar);
    }

    /** `flush_input` (hp8903.py:233-237): discards received input when open. */
    method FlushInput() returns (ok: bool)
      modifies ser
      ensures ok && IsOpen() == old(IsOpen())
      ensures ser != null ==>
        ser.WireState() == (if old(IsOpen()) then old(ser.WireState()).(input := []) else old(ser.WireState())) &&
        ser.written == old(ser.written)
    {
      if IsOpen() {
        ser.FlushInput();
      }
      return true;
    }

    /** `test` (hp8903.py:243-245): nothing to ask the device; passes when
        the port is open. */
    function Test(): (ok: bool)
      reads this, ser
      ensures ok ==> ser != null && ser.isOpen
    {
      IsOpen()
    }
  }

  /** The controller commands the Galvant adapter sends when it opens
      (hp8903.py:280-295), before the framing newline: no automatic
      read-after-write, a 2500 ms read timeout, CR LF appended to output,
      interface clear, the instrument address, local lockout. */
  function OpenCommands(addr: int): (cmds: seq<string>)
    ensures |cmds| == 6
  {
    ["++auto 0", "++read_tmo_ms 2500", "++eos 0", "++ifc", "++addr " + Decimal(addr), "++llo"]
  }

  /** The commands it sends when it closes (hp8903.py:313-318): interface
      clear, then return the instrument to local control. */
  const CloseCommands: seq<string> := ["++ifc", "++loc"]

  /** The Galvant adapter's framing of every write (hp8903.py:324). */
  function GalvantFrame(data: string): string {
    data + "\n"
  }

  function MapFrame(cmds: seq<string>): (r: seq<string>)
    ensures |r| == |cmds|
    ensures forall i :: 0 <= i < |cmds| ==> r[i] == GalvantFrame(cmds[i])
  {
    if cmds == [] then [] else [GalvantFrame(cmds[0])] + MapFrame(cmds[1..])
  }

  /** The request to read until the end-of-string condition, as it reaches
      the wire: `read` passes "++read\n" to `write`, which adds another
      newline (hp8903.py:342 with hp8903.py:324). */
  const ReadRequest: string := GalvantFrame("++read\n")

  /** Galvant GPIB USB adapter (hp8903.py:257-421): a GPIB controller
      driven by "++" commands; it sets the instrument address itself. */
  class GalvantGpibUsb {
    const gpibAddr: int
    var devName: Option<string>
    var ser: SerialPort?
    const baud: nat := 460800
    /** Not set by the constructor in the source; first assigned by `read`. */
    var buffer: seq<char>

    predicate IsOpen()
      reads this, ser
    {
      ser != null && ser.isOpen
    }

    constructor (gpibAddr: int := 0)
      ensures !IsOpen()
      ensures this.gpibAddr == gpibAddr && devName == None && ser == null
    {
      this.gpibAddr := gpibAddr;
      devName := None;
      ser := null;
      buffer := [];
    }

    /** `write` (hp8903.py:322-333): a newline is appended to the data and
        the framed length returned; on a closed adapter nothing is sent and
        0 is returned. `_command` (hp8903.py:394-396) is this same write. */
    method Write(data: string) returns (n: nat)
      modifies ser
      ensures IsOpen() == old(IsOpen())
      ensures old(IsOpen()) ==> ser.written == old(ser.written) + [GalvantFrame(data)] && n == |data| + 1
      ensures !old(IsOpen()) ==> n == 0 && (ser != null ==> ser.written == old(ser.written))
      ensures ser != null ==>
        ser.WireState() == old(ser.WireState()) && ser.baud == old(ser.baud) && ser.byteSize == old(ser.byteSize)
    {
      var framed := data + "\n";
      if IsOpen() {
        n := ser.Write(framed);
      } else {
        return 0;
      }
    }

    /** `open` (hp8903.py:264-300): opens `port` at 460800 baud with 8 data
        bits; when it opened, discards received input and configures the
        controller with `OpenCommands`, in order, each framed. */
    method Open(port: SerialPort) returns (ok: bool)
      modifies this, port
      ensures ser == port && devName == Some(port.path)
      ensures ok == port.present && IsOpen() == ok
      ensures port.baud == 460800 && port.byteSize == 8
      ensures port.WireState() == if ok then old(port.WireState()).(input := []) else old(port.WireState())
      ensures port.written == old(port.written) + (if ok then MapFrame(OpenCommands(gpibAddr)) else [])
      ensures buffer == old(buffer)
    {
      devName := Some(port.path);
      ser := port;
      port.Open(baud, 8);
      if IsOpen() {
        port.FlushInput();
        var n := Write("++auto 0");
        n := Write("++read_tmo_ms 2500");
        n := Write("++eos 0");
        n := Write("++ifc");
        var addrCommand := "++addr " + Decimal(gpibAddr);
        n := Write(addrCommand);
        n := Write("++llo");
        assert port.written == old(port.written) + MapFrame(OpenCommands(gpibAddr));
      } else {
        return false;
      }
      return true;
    }

    /** `close` (hp8903.py:311-320): an open adapter sends `CloseCommands`
        and closes the port; always succeeds. */
    method Close() returns (ok: bool)
      modifies ser
      ensures ok && !IsOpen()
      ensures ser != null ==>
        ser.WireState() == old(ser.WireState()) &&
        ser.written == old(ser.written) + (if old(IsOpen()) then MapFrame(CloseCommands) else [])
    {
      if IsOpen() {
        var n := Write("++ifc");
        n := Write("++loc");
        assert ser.written == old(ser.written) + MapFrame(CloseCommands);
        ser.Close();
      }
      return true;
    }

    /** `read` (hp8903.py:335-392): as the other adapter's, but first asks
        the controller to read, and the terminator defaults to CR. */
    method Read(msgLen: int := 0, timeout: int := 500, endChar: char := '\r') returns (reply: Option<string>)
      modifies this, ser
      ensures ser == old(ser) && IsOpen() == old(IsOpen())
      ensures devName == old(devName)
      ensures !old(IsOpen()) ==>
        reply == None && buffer == old(buffer) &&
        (ser != null ==> ser.WireState() == old(ser.WireState()) && ser.written == old(ser.written))
      ensures old(IsOpen()) ==>
        var f := ReadOutcome(ser.clock, msgLen, timeout, endChar, old(ser.WireState()));
        reply == f.result && buffer == f.buffer && ser.WireState() == f.wire &&
        ser.written == old(ser.written) + [ReadRequest]
    {
      if !IsOpen() {
        return None;
      }
      buffer := [];
      var n := Write("++read\n");
      reply, buffer := PollRead(ser, msgLen, timeout, endChar);
    }

    /** `test` (hp8903.py:398-411): asks for the controller's version and
        passes when the reply to a CR-terminated read with a 1000 ms timeout
        starts with "Version". */
    method Test() returns (ok: bool)
      modifies this, ser
      ensures ser == old(ser) && IsOpen() == old(IsOpen())
      ensures !old(IsOpen()) ==>
        !ok && (ser != null ==> ser.WireState() == old(ser.WireState()) && ser.written == old(ser.written))
      ensures old(IsOpen()) ==>
        var f := ReadTerminated(ser.clock, 1000, '\r', old(ser.WireState()));
        ser.written == old(ser.written) + [GalvantFrame("++ver"), ReadRequest] &&
        ser.WireState() == f.wire && buffer == f.buffer &&
        ok == (f.result.Some? && |f.result.value| >= 7 && f.result.value[..7] == "Version")
    {
      var r := Write("++ver");
      if r != 6 {
        return false;
      }
      var msg := Read(timeout := 1000, endChar := '\r');
      ok := msg.Some? && |msg.value| >= 7 && Slice(msg.value, 0, 7) == "Version";
    }
  }

  // ---------------------------------------------------------------------
  // The adapter in use
  // ---------------------------------------------------------------------

  /** An entry of `HP8903_GPIB_devices` (hp8903.py:424-425), instantiated. */
  datatype Bridge = Galvant(galvant: GalvantGpibUsb) | Ni(ni: NiGpib232cvA)

  function Adapter(b: Bridge): object {
    match b
    case Galvant(g) => g
    case Ni(n) => n
  }

  function Port(b: Bridge): SerialPort?
    reads Adapter(b)
  {
    match b
    case Galvant(g) => g.ser
    case Ni(n) => n.ser
  }

  predicate BridgeOpen(b: Bridge)
    reads Adapter(b), Port(b)
  {
    Port(b) != null && Port(b).isOpen
  }

  /** What reaches the wire when `data` is written through `b`. */
  function Frame(b: Bridge, data: string): string {
    if b.Galvant? then GalvantFrame(data) else data
  }

  /** What a read through `b` writes before it polls. */
  function ReadPreamble(b: Bridge): seq<string> {
    if b.Galvant? then [ReadRequest] else []
  }

  /** The terminator a read through `b` uses by default. */
  function DefaultEnd(b: Bridge): char {
    if b.Galvant? then '\r' else '\n'
  }

  /** `implements_addr`: only the Galvant adapter sets the instrument
      address itself (hp8903.py:420-421); the other inherits `False`
      (hp8903.py:117-119). */
  predicate ImplementsAddr(b: Bridge) {
    b.Galvant?
  }

  /** `flush_input` is a real flush on the NI adapter; the Galvant adapter
      inherits the base class's empty one (hp8903.py:97-99). */
  predicate FlushesInput(b: Bridge) {
    b.Ni?
  }

  method BridgeWrite(b: Bridge, data: string) returns (n: nat)
    modifies Port(b)
    ensures Port(b) == old(Port(b)) && BridgeOpen(b) == old(BridgeOpen(b))
    ensures old(BridgeOpen(b)) ==>
      Port(b).written == old(Port(b).written) + [Frame(b, data)] && n == |Frame(b, data)|
    ensures !old(BridgeOpen(b)) ==> n == 0 && (Port(b) != null ==> Port(b).written == old(Port(b).written))
    ensures Port(b) != null ==> Port(b).WireState() == old(Port(b).WireState())
  {
    match b
    case Galvant(g) => n := g.Write(data);
    case Ni(ni) => n := ni.Write(data);
  }

  method BridgeRead(b: Bridge, msgLen: int, timeout: int, endChar: char) returns (reply: Option<string>)
    modifies Adapter(b), Port(b)
    ensures Port(b) == old(Port(b)) && BridgeOpen(b) == old(BridgeOpen(b))
    ensures !old(BridgeOpen(b)) ==>
      reply == None &&
      (Port(b) != null ==> Port(b).WireState() == old(Port(b).WireState()) && Port(b).written == old(Port(b).written))
    ensures old(BridgeOpen(b)) ==>
      var f := ReadOutcome(Port(b).clock, msgLen, timeout, endChar, old(Port(b).WireState()));
      reply == f.result && Port(b).WireState() == f.wire &&
      Port(b).written == old(Port(b).written) + ReadPreamble(b)
  {
    match b
    case Galvant(g) => reply := g.Read(msgLen, timeout, endChar);
    case Ni(ni) => reply := ni.Read(msgLen, timeout, endChar);
  }

  method BridgeFlushInput(b: Bridge)
    modifies Port(b)
    ensures Port(b) == old(Port(b)) && BridgeOpen(b) == old(BridgeOpen(b))
    ensures Port(b) != null ==>
      Port(b).written == old(Port(b).written) &&
      Port(b).WireState() == if old(BridgeOpen(b)) && FlushesInput(b) then old(Port(b).WireState()).(input := [])
                             else old(Port(b).WireState())
  {
    match b
    case Galvant(g) =>
    case Ni(ni) => var ok := ni.FlushInput();
  }

  method BridgeClose(b: Bridge)
    modifies Port(b)
    ensures Port(b) == old(Port(b)) && !BridgeOpen(b)
    ensures Port(b) != null ==>
      Port(b).WireState() == old(Port(b).WireState()) &&
      Port(b).written == old(Port(b).written) +
        (if old(BridgeOpen(b)) && b.Galvant? then MapFrame(CloseCommands) else [])
  {
    var ok;
    match b
    case Galvant(g) => ok := g.Close();
    case Ni(ni) => ok := ni.Close();
  }

  method BridgeOpenPort(b: Bridge, port: SerialPort) returns (ok: bool)
    modifies Adapter(b), port
    ensures Port(b) == port
    ensures ok == port.present && BridgeOpen(b) == ok
    ensures port.WireState() == if ok then old(port.WireState()).(input := []) else old(port.WireState())
    ensures port.written == old(port.written) +
      (if ok && b.Galvant? then MapFrame(OpenCommands(b.galvant.gpibAddr)) else [])
  {
    match b
    case Galvant(g) => ok := g.Open(port);
    case Ni(ni) => ok := ni.Open(port);
  }

  /** The outcome of `test` on an open adapter whose port is in receive
      state `w`. */
  function TestPasses(b: Bridge, clock: Clock, w: Wire): bool
  {
    if b.Ni? then true
    else
      var f := ReadTerminated(clock, 1000, '\r', w);
      f.result.Some? && |f.result.value| >= 7 && f.result.value[..7] == "Version"
  }

  /** What `test` writes on an open adapter. */
  function TestCommands(b: Bridge): seq<string> {
    if b.Ni? then [] else [GalvantFrame("++ver"), ReadRequest]
  }

  method BridgeTest(b: Bridge) returns (ok: bool)
    modifies Adapter(b), Port(b)
    ensures Port(b) == old(Port(b)) && BridgeOpen(b) == old(BridgeOpen(b))
    ensures !old(BridgeOpen(b)) ==>
      !ok && (Port(b) != null ==> Port(b).WireState() == old(Port(b).WireState()) && Port(b).written == old(Port(b).written))
    ensures old(BridgeOpen(b)) ==>
      ok == TestPasses(b, Port(b).clock, old(Port(b).WireState())) &&
      Port(b).written == old(Port(b).written) + TestCommands(b) &&
      Port(b).WireState() == (if b.Ni? then old(Port(b).WireState())
                              else ReadTerminated(Port(b).clock, 1000, '\r', old(Port(b).WireState())).wire)
  {
    match b
    case Galvant(g) => ok := g.Test();
    case Ni(ni) => ok := ni.Test();
  }
}
