# HP 8903 audio analyzer control, modelled in Dafny

`hp8903.py` drives an HP 8903 audio analyzer over HP-IB. It reaches the bus
through one of two serial-attached bridge adapters: the National
Instruments GPIB-232CV-A, a plain pass-through, or the Galvant GPIB USB
adapter, a controller driven by `++` commands. The GTK window connects to
the analyzer, builds one HP-IB program string per measurement, reads the
reply back and decodes it. A measurement run is a few preliminary
measurements followed by a sweep over frequency or amplitude. The older
`hp8903b.py` does the same on a raw serial port, with one fixed
measurement.

The model has seven modules. Each file holds one:

- `Py` (`py.dfy`): the Python 2 semantics the code relies on. These are
  `None`, exceptions, `s[i:j]`, `int()` and `str()` on integers, and IEEE
  `>` on doubles (`Double`, `Greater`).
- `Serial` (`serial.dfy`): the pyserial port, as a class. Its fields are
  whether it is open, its line settings, the received bytes and a
  schedule of chunks still to arrive, one per `inWaiting()` poll. It also
  holds the clock readings taken so far and every string written to it.
  The clock is the sequence of `datetime.now()` readings, strictly
  increasing.
- `Polling` (`polling.dfy`): the polling `read` loop the two adapters
  share, in terminator mode and fixed-length mode. The functions
  `ReadTerminated` and `ReadFixed` state on the port state what a read
  returns, what it leaves in the adapter's `buffer` and what it leaves on
  the port. The loop methods are proved to agree with them, and lemmas
  characterise them over all the bytes the read saw, and over the clock.
- `Adapters` (`adapters.dfy`): the two adapter classes with `open`,
  `close`, `write`, `read`, `flush_input`, `test` and `implements_addr`.
  It also has `Bridge`, the entry of `HP8903_GPIB_devices` in use.
- `Codec` (`codec.dfy`): the program string `send_measurement` builds, a
  parser that reads it back field by field, the error table, and the
  decode of the reply.
- `Window` (`window.dfy`): the window's instrument logic. This is
  `setup_gpib`, `close_gpib`, `init_hp8903`, `send_measurement` and
  `run_test`, with the widgets replaced by parameters. Functions over the
  port state (`Connection`, `Exchange`, `RunWith`) say what each does, and
  the methods of `Hp8903Window` are proved to do it.
- `Hp8903b` (`hp8903b.dfy`): the older program's request builder, its
  choice of sweep points and its sweep loop.

Python's `%.4E` and `float()` appear as a pair of uninterpreted functions
(`Codec.FloatText`). The model keeps three behaviours of the code that a
reader might not expect:

- A Galvant read sends "++read\n" through `write`, which appends another
  newline, so "++read\n\n" reaches the adapter.
- In fixed-length mode, a poll that finds at least `msg_len` bytes waiting
  returns the first `msg_len` of them and drops what earlier polls had
  accumulated (`Polling.FixedReadDropsEarlierBytes`).
- The accumulating branch of fixed-length mode reads whole chunks and
  returns only the first `msg_len` bytes, so the excess is lost too.

## Model

| member | source | states |
|---|---|---|
| Py.Slice | hp8903.py:1193 | `s[i:j]` clamps both bounds to the length and is empty for an empty or out-of-range span |
| Py.IndexOf | hp8903.py:189-198 | the position of the first terminator: every earlier character differs from it, and the result is the length when there is none |
| Py.NatDecimal | hp8903.py:291 | `str(n)` of a non-negative integer is a non-empty string of decimal digits |
| Py.ParseDecimal | hp8903.py:1193 | `int(str(n)) == n` for every integer, sign included |
| Py.GreaterIsStrictOrder | hp8903.py:1192 | IEEE `>` is irreflexive, asymmetric and transitive, and never holds with NaN on either side |
| Polling.ReadTerminatedReply | hp8903.py:184-206 | poll by poll: a terminator read makes at least one poll, consumes one scheduled chunk per poll, and stops at the first poll that brings a terminator (no earlier poll held one); over every byte its polls found, it succeeds iff a terminator was seen, returns the bytes through the first one and leaves the rest unread; on failure the buffer keeps everything seen |
| Polling.ReadTerminatedTiming | hp8903.py:183-202 | a success took every clock reading inside the timeout; a failure ends on the first reading after a poll that is at least `timeout` past the start |
| Polling.ReadFixedReply | hp8903.py:208-227 | poll by poll, with `before` the bytes read before the last poll (fewer than `msg_len`) and `last` the bytes that poll found waiting: the read succeeds exactly when the two together reach `msg_len`, so it stops at the first poll that completes the message; when `last` alone holds `msg_len` bytes the reply is its first `msg_len`, `before` is dropped, the reply stays in the buffer and the rest stays unread; otherwise the reply is the first `msg_len` of `before` and `last`, the excess is dropped and the buffer emptied; a failure keeps both in the buffer |
| Polling.ReadFixedTiming | hp8903.py:209-227 | the same timeout behaviour for the fixed-length loop |
| Polling.FixedReadDropsEarlierBytes | hp8903.py:213-215 | with "ab" then "cdefg" arriving, a 3-byte read returns "cde", not "abc", and "fg" stays unread |
| Polling.TakeThrough | hp8903.py:189-198 | the byte-by-byte loop over the waiting bytes stops right after the first terminator, which it reports as found, and leaves the rest on the port |
| Polling.PollTerminated | hp8903.py:184-206 | the terminator loop returns `ReadTerminated`'s reply, buffer and port state |
| Polling.PollFixed | hp8903.py:208-227 | the fixed-length loop returns `ReadFixed`'s reply, buffer and port state |
| Polling.PollRead | hp8903.py:183-231 | `msg_len <= 0` selects the terminator loop and anything else the fixed-length loop; the written log is unchanged |
| Adapters.NiGpib232cvA.constructor | hp8903.py:123-131 | the address argument is stored (nothing in the adapter reads it: the address is set by DIP switches); the adapter starts closed with an empty buffer |
| Adapters.NiGpib232cvA.Open | hp8903.py:133-150 | opens at 38400 baud with 7 data bits, succeeds exactly when the device can be opened, and then discards received input; nothing is written |
| Adapters.NiGpib232cvA.Close | hp8903.py:161-165 | always succeeds and leaves the adapter closed; nothing is written |
| Adapters.NiGpib232cvA.Write | hp8903.py:167-175 | an open adapter sends the data unchanged and returns its length; a closed one sends nothing and returns 0 |
| Adapters.NiGpib232cvA.Read | hp8903.py:177-231 | closed: `(False, None)`, with the buffer and port untouched; open: the buffer is reset and the result is that of `ReadOutcome` |
| Adapters.NiGpib232cvA.FlushInput | hp8903.py:233-237 | discards received input only when open, and always returns true |
| Adapters.NiGpib232cvA.Test | hp8903.py:243-245 | passes only on an open port |
| Adapters.OpenCommands | hp8903.py:280-295 | the Galvant configuration is six commands, the address fifth |
| Adapters.MapFrame | hp8903.py:322-333 | each command is framed with its newline, in order |
| Adapters.GalvantGpibUsb.constructor | hp8903.py:258-262 | keeps the address it is given and starts closed |
| Adapters.GalvantGpibUsb.Write | hp8903.py:322-333 | an open adapter appends a newline, sends the data and returns its length plus one; a closed one sends nothing and returns 0 |
| Adapters.GalvantGpibUsb.Open | hp8903.py:264-300 | opens at 460800 baud with 8 data bits; when it opened, it discards received input and writes the six framed configuration commands in order |
| Adapters.GalvantGpibUsb.Close | hp8903.py:311-320 | an open adapter writes "++ifc" and "++loc" and closes; always succeeds |
| Adapters.GalvantGpibUsb.Read | hp8903.py:335-392 | as the NI read, plus the "++read\n\n" request written before polling |
| Adapters.GalvantGpibUsb.Test | hp8903.py:398-411 | writes "++ver" and a read request; passes iff a CR-terminated reply arrived within 1000 ms and starts with "Version"; fails at once when closed |
| Adapters.BridgeWrite | hp8903.py:322-333 | a write through the adapter in use sends its frame of the data when open (the data itself for the NI adapter, hp8903.py:167-175), nothing when closed |
| Adapters.BridgeRead | hp8903.py:335-392 | a read through the adapter in use writes its read preamble and returns `ReadOutcome` when open, `None` when closed |
| Adapters.BridgeFlushInput | hp8903.py:97-99 | only the NI adapter discards input (hp8903.py:233-237); the Galvant adapter inherits the base class's empty `flush_input` |
| Adapters.BridgeClose | hp8903.py:311-320 | the adapter ends closed; only an open Galvant adapter writes its close commands |
| Adapters.BridgeOpenPort | hp8903.py:264-300 | opening succeeds iff the device can be opened; only a Galvant adapter writes configuration |
| Adapters.BridgeTest | hp8903.py:398-411 | `test` on the adapter in use: the NI adapter always passes when open (hp8903.py:243-245); the Galvant adapter's outcome is `TestPasses` |
| Window.ImplementsAddrSendsAddress | hp8903.py:420-421 | `implements_addr` holds exactly for the adapter whose opening sends "++addr" with the chosen address (hp8903.py:291-292); the other, which inherits `False` (hp8903.py:117-119), sends no configuration |
| Codec.FilterFieldSpec | hp8903.py:1142-1154 | the filter field is "L" digit "H" digit; each digit names the first box ticked of its pair, 0 for none |
| Codec.KeySpec | hp8903.py:1156-1174 | the mode, unit and ratio keys for every value of their axes, both directions |
| Codec.ParseCommand | hp8903.py:1177 | whatever the reader accepts is exactly the rendering of the fields it returns |
| Codec.ParseRender | hp8903.py:1177 | every well-formed command reads back from its rendering |
| Codec.PayloadReadsBack | hp8903.py:1166-1177 | the request `send_measurement` builds (`Codec.Payload`) reads back, field by field, as the two rendered numbers and the mode, filter, unit and ratio keys of its arguments, whenever the rendered numbers hold no 'H' or 'V' |
| Codec.DecodeCases | hp8903.py:1184-1198 | a failed read returns `None`; a reading at most 4e9 is returned as text; an error report returns its code and message; a non-number raises `ValueError`, and an unknown code raises `KeyError` |
| Codec.ErrorCodeField | hp8903.py:1193 | characters 4 and 5 of an error report read back as its two-digit code |
| Codec.DecodeErrorReport | hp8903.py:1192-1194 | an error report naming a code decodes to the code and its message in `HP8903_errors` (hp8903.py:32-49), or raises `KeyError` when the table has none |
| Codec.DecodeCode | hp8903.py:1192-1194 | the decode of a reply above the sentinel depends only on the code in characters 4 and 5 |
| Codec.DecodedToFloat | hp8903.py:1187-1194 | `float()` of a decoded sample, as `run_test` applies it, raises only for a failed read, and then `TypeError`; it is NaN for an error report and never above 4e9 |
| Window.ExchangeOfRealizes | hp8903.py:1136-1198 | the link's own exchanges are a valid exchange function for the window's methods |
| Window.ExchangeProper | hp8903.py:1184-1198 | one exchange writes the payload and read preamble when open, changes nothing when closed, and never yields a plotted value above 4e9 |
| Window.RealizesProper | hp8903.py:1136-1198 | every exchange function that agrees with the link has those properties |
| Window.PreliminarySpec | hp8903.py:1048-1057 | the preliminary measurements by mode: one with ratio off for modes 0 and 1, without and then with ratio for 2 and 3, one at the start amplitude for 4, none otherwise |
| Window.StepRequests | hp8903.py:1059-1074 | one request per sweep point, in order |
| Window.SendsAppend | hp8903.py:1059-1074 | what two stretches of requests write is what each writes, in order |
| Window.PlotsStep | hp8903.py:1062-1063 | appending a point and its value extends what the rest of the sweep plots |
| Window.PlotsStop | hp8903.py:1061-1063 | an exception before or between the two appends ends the sweep with `x` at most one longer than `y` |
| Window.StepsFromPlot | hp8903.py:1059-1074 | the sweep plots a prefix of the points in order; `y` is at most one shorter, and only after an exception; no value is above 4e9; a normal end covers every point (what the values are is `StepsFromValues`) |
| Window.StepsFromValues | hp8903.py:1059-1074 | the i-th value the sweep appends to `y` is `float()` of the sample returned by the i-th point's own exchange, each exchange made on the receive state the previous one left |
| Window.StepsFromSends | hp8903.py:1059-1074 | on an open adapter, a sweep that ends normally writes exactly the points' requests, in order |
| Window.StepsFromClosed | hp8903.py:1060-1063 | on a closed adapter the first point raises `TypeError` after it was appended to `x`, and nothing is written |
| Window.PrelimFromSpec | hp8903.py:1048-1057 | the preliminary measurements plot nothing; unless one raised, they write exactly their requests |
| Window.RunWithSpec | hp8903.py:974-1096 | the whole run for any well-behaved exchanges: how much it plots, what it writes on an open adapter or a closed one, and the `IndexError` a frequency sweep with no points raises before any request |
| Window.RunWithValues | hp8903.py:1048-1074 | the i-th plotted value is `float()` of the sample of the i-th sweep exchange, after the preliminary exchanges, every exchange made in order on the receive state the one before left |
| Window.RunOutcomeSpec | hp8903.py:993-1074 | the run through the adapter in use: `x` is a prefix of the sweep points, `y` holds `float()` of each point's own reply and matches `x` except after `float()` raised, nothing is plotted above 4e9, a normal end writes the preliminary requests then one per point, a closed adapter raises `TypeError` at once, and a frequency sweep with no points raises `IndexError` with nothing plotted or written |
| Window.Initialized | hp8903.py:902-917 | the initialization only appends to what was written |
| Window.Tested | hp8903.py:890-917 | the test and initialization only append to what was written |
| Window.ConnectionSpec | hp8903.py:845-946 | connecting succeeds iff the port opens, the test passes and the analyzer answers the program string with 12 bytes in time; on success the port is open and the log is configuration, test, then program string; the NI adapter cannot fail its test; a failed Galvant test leaves the port open |
| Window.ConnectionConfiguresFirst | hp8903.py:264-300 | whatever follows, the first six lines a Galvant connection writes are its configuration for the chosen address |
| Window.Hp8903Window.InitHp8903 | hp8903.py:1121-1134 | flush, then the fixed program string, then a 12-byte read with a 5000 ms timeout; succeeds iff that read did |
| Window.Hp8903Window.SetupGpib | hp8903.py:845-946 | builds the chosen `HP8903_GPIB_devices` entry for the address and ends in the state `Connection` gives |
| Window.Hp8903Window.Connect | hp8903.py:877-930 | open, then test and initialize, ending as `Connection` gives |
| Window.Hp8903Window.TestAndInitialize | hp8903.py:890-930 | test, then initialize after a pass, ending as `Tested` gives |
| Window.Hp8903Window.Initialize | hp8903.py:902-917 | flush, initialize, and close after a failure, ending as `Initialized` gives |
| Window.Hp8903Window.CloseGpib | hp8903.py:948-972 | the adapter, if any, ends closed; an open Galvant adapter writes its close commands |
| Window.Hp8903Window.SendMeasurement | hp8903.py:1136-1198 | one exchange: returns what `Exchange` returns and leaves the port as it says |
| Window.Hp8903Window.MeasurePoint | hp8903.py:1060-1075 | one sweep point, as `StepRun` gives |
| Window.Hp8903Window.Sweep | hp8903.py:1059-1075 | the sweep loop, as `StepsFrom` gives |
| Window.Hp8903Window.Preliminaries | hp8903.py:1048-1057 | the preliminary measurements, as `PrelimFrom` gives |
| Window.Hp8903Window.RunTest | hp8903.py:974-1096 | clears the plot data, then ends in the state `RunWith` gives, raising `IndexError` for a frequency sweep with no points |
| Hp8903b.FilterFieldB | hp8903b.py:311-323 | the older filter field is the newer one |
| Hp8903b.PayloadBInsertsUnit | hp8903b.py:325-329 | the older request is the newer one for distortion, linear units and no ratio, with an extra "LN" inserted after the mode key |
| Hp8903b.KeepBetweenMembers | hp8903b.py:275 | a point is kept iff it lies strictly between the start and stop frequencies; neither bound is ever kept |
| Hp8903b.KeepBetweenAppend | hp8903b.py:275 | the selection keeps the points' order |
| Hp8903b.RequestsStep | hp8903b.py:277-278 | requesting one more point appends its request to the log |
| Hp8903b.RequestsAt | hp8903b.py:277-278 | the k-th request written is the one for the k-th point |
| Hp8903b.Hp8903bWindow.SendMeasurementB | hp8903b.py:310-339 | writes the request and returns the next reply |
| Hp8903b.Hp8903bWindow.SweepB | hp8903b.py:277-283 | `x` is a prefix of the points; one request per point of `x`, in order; `y` holds `float()` of the replies; a normal end covers every point; a reply that is not a number raises `ValueError` with `x` one longer than `y` |
| Hp8903b.Hp8903bWindow.RunTestB | hp8903b.py:275-283 | the same over the points strictly between the start and stop frequencies |

## Left out

- The GTK window: widgets, sensitivity toggling, the status bar, `update_plot`, the plot axes (except that `set_xlim` reading the first point of an empty frequency sweep raises `IndexError`, which the model keeps), the menu and file dialogs (`save_data`), and the callbacks. The choices the widgets make arrive as parameters instead.
- The sweep grids (`log10`, `floor`, `logspace`, `linspace`), which are floating-point computations. The computed points are a parameter, `lsteps` for the older program.
- Python's `%.4E` and `float()`, and the 4.0e9 sentinel's place among doubles: `Codec.FloatText` is uninterpreted, and a double is an exact real, an infinity or NaN.
- `time.sleep`, `print`, `serial.tools.list_ports`, `name()` and `status()`, which have no effect the model can observe.
- `Gtk.events_pending()` inside the read loops, taken as having no effect on the port.
- A `serial.Serial` that raises `SerialException` is modelled as a port that did not open.
- Stop bits and parity, which never change.
- Serial.Clock: the readings of `datetime.now()` are whole milliseconds that strictly increase with every reading. A wall clock with microsecond resolution whose readings repeat or step back, so that the source goes on polling past its deadline, is not modelled. The model also admits at most about `timeout` polls before the deadline. Termination of both read loops, and both timing lemmas, rest on this.
- `hp8903b.py`'s `setup_serial`, `close_serial` and `init_hp8903`.
- Hp8903b.Hp8903bWindow.SendMeasurementB: the unbounded `inWaiting() < 12` busy wait is not modelled. The reply to the k-th request is given, `reply(k)`.
- The scripts under `hardware_tests/`, and the `__main__` blocks that start the GTK main loop.
- Window.Hp8903Window.SetupGpib: the source returns `None` on success, because it has no final `return True`, and `False` on every failure. The model's `ok` is true exactly when the connection was made.
- The `else` branch of hp8903.py:919-930, which cannot run: a test that passed leaves the port open. `TestAndInitialize` proves that.
- Window.Hp8903Window.RunTest, Sweep, MeasurePoint, Preliminaries, SendMeasurement and InitHp8903: these require an adapter to have been made, while the source would raise `AttributeError` on `None`.
- Window.Hp8903Window.RunTest, Sweep, MeasurePoint, Preliminaries and SendMeasurement: these take the exchange as a ghost function `ex` that agrees with `Exchange` (`Realizes`). `Window.ExchangeOfRealizes` shows that one always exists.
- An exception in `run_test` ends the model's run and is returned; in the source it also leaves the widgets disabled.
- `Py.ParseInt` covers ASCII whitespace, an optional sign and decimal digits. That is all `int()` meets in two characters of an analyzer reply.
- Codec.ParseCommand: not from the source. It is the reader used to state that a program string carries its fields unambiguously.
