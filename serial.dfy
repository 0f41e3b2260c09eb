/** The pyserial port the adapters drive, reduced to what they use of it,
    together with the wall clock the read loops consult. The environment is
    given up front: which device can be opened, the chunk of bytes that has
    arrived by each successive `inWaiting()` poll, and the successive readings
    of the clock. */
module Serial {

  /** Everything about the receive side that a read changes: bytes received
      and not yet read, chunks still to arrive (one per poll), the number of
      polls and of clock readings so far. */
  datatype Wire = Wire(input: seq<char>, arrivals: seq<seq<char>>, polls: nat, ticks: nat)

  /** The next chunk to arrive; nothing arrives once the schedule is spent. */
  function Head(arrivals: seq<seq<char>>): seq<char> {
    if arrivals == [] then [] else arrivals[0]
  }

  function Tail(arrivals: seq<seq<char>>): seq<seq<char>> {
    if arrivals == [] then [] else arrivals[1..]
  }

  /** Successive clock readings strictly increase, so every deadline passes. */
  ghost predicate Advancing(clock: nat -> int) {
    forall i: nat, j: nat :: i < j ==> clock(i) < clock(j)
  }

  /** The readings of `datetime.now()`, in milliseconds, in the order taken. */
  type Clock = c: nat -> int | Advancing(c) witness (i: nat) => i as int

  class SerialPort {
    /** The device node this object stands for. */
    const path: string
    /** Whether the device can be opened at all (present, free, permitted). */
    const present: bool
    /** The clock the read loops consult; `ticks` readings taken so far. */
    const clock: Clock

    var isOpen: bool
    var baud: nat
    var byteSize: nat
    var input: seq<char>
    var arrivals: seq<seq<char>>
    var polls: nat
    var ticks: nat
    /** Every string handed to `write()`, in order. */
    var written: seq<string>

    function WireState(): Wire
      reads this
    {
      Wire(input, arrivals, polls, ticks)
    }

    constructor (path: string, present: bool, arrivals: seq<seq<char>>, clock: Clock)
      ensures !isOpen
      ensures this.path == path && this.present == present && this.clock == clock
      ensures WireState() == Wire([], arrivals, 0, 0) && written == []
    {
      this.path := path;
      this.present := present;
      this.clock := clock;
      isOpen := false;
      baud, byteSize := 0, 0;
      input := [];
      this.arrivals := arrivals;
      polls, ticks := 0, 0;
      written := [];
    }

    /** `serial.Serial(path, baud, bytesize=...)`: the port is open exactly
        when the device can be opened. */
    method Open(baud: nat, byteSize: nat)
      modifies this
      ensures isOpen == present && this.baud == baud && this.byteSize == byteSize
      ensures WireState() == old(WireState()) && written == old(written)
    {
      isOpen := present;
      this.baud := baud;
      this.byteSize := byteSize;
    }

    /** `inWaiting()`: the next chunk arrives; the count of unread bytes. */
    method InWaiting() returns (w: nat)
      requires isOpen
      modifies this
      ensures input == old(input) + Head(old(arrivals)) && arrivals == Tail(old(arrivals))
      ensures polls == old(polls) + 1 && ticks == old(ticks)
      ensures w == |input|
      ensures isOpen && written == old(written) && baud == old(baud) && byteSize == old(byteSize)
    {
      input := input + Head(arrivals);
      arrivals := Tail(arrivals);
      polls := polls + 1;
      w := |input|;
    }

    /** `read(n)` with `n` bytes already waiting: the first `n` of them. */
    method Read(n: nat) returns (data: seq<char>)
      requires isOpen && n <= |input|
      modifies this
      ensures data == old(input)[..n] && input == old(input)[n..]
      ensures arrivals == old(arrivals) && polls == old(polls) && ticks == old(ticks)
      ensures isOpen && written == old(written) && baud == old(baud) && byteSize == old(byteSize)
    {
      data := input[..n];
      input := input[n..];
    }

    /** `write(data)`: all of it is sent, and its length reported. */
    method Write(data: string) returns (n: nat)
      requires isOpen
      modifies this
      ensures written == old(written) + [data] && n == |data|
      ensures WireState() == old(WireState())
      ensures isOpen && baud == old(baud) && byteSize == old(byteSize)
    {
      written := written + [data];
      n := |data|;
    }

    /** `flushInput()`: received bytes are discarded. */
    method FlushInput()
      requires isOpen
      modifies this
      ensures WireState() == old(WireState()).(input := [])
      ensures isOpen && written == old(written) && baud == old(baud) && byteSize == old(byteSize)
    {
      input := [];
    }

    method Close()
      modifies this
      ensures !isOpen
      ensures WireState() == old(WireState()) && written == old(written)
      ensures baud == old(baud) && byteSize == old(byteSize)
    {
      isOpen := false;
    }

    /** `datetime.now()`: the next clock reading. */
    method Now() returns (t: int)
      modifies this
      ensures t == clock(old(ticks)) && ticks == old(ticks) + 1
      ensures input == old(input) && arrivals == old(arrivals) && polls == old(polls)
      ensures isOpen == old(isOpen) && written == old(written) && baud == old(baud) && byteSize == old(byteSize)
    {
      t := clock(ticks);
      ticks := ticks + 1;
    }
  }
}
