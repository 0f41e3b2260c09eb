/** The HP 8903 command and reply codec of `send_measurement`
    (hp8903.py:1136-1198) and the error table it decodes with
    (hp8903.py:32-49).

    A measurement request is one HP-IB program string built from fixed
    two-letter codes: source frequency, source amplitude, measurement mode,
    the two filter selections, the display unit, an optional ratio key and
    the trigger "T3". The numbers are rendered with Python's `%.4E` and the
    reply is read back with `float()`; both are floating-point routines and
    are parameters here. */
module Codec {
  import opened Py

  // ---------------------------------------------------------------------
  // Encoding
  // ---------------------------------------------------------------------

  /** Python's `%.4E` rendering of a float and its `float()` parsing of a
      string (`None` for `ValueError`), both left abstract. */
  datatype FloatText = FloatText(format: Double -> string, parse: string -> Option<Double>)

  /** The four filter check boxes, in the order of the source's `filters`
      list: 30 kHz low pass, 80 kHz low pass, left and right plug-in. */
  datatype Filters = Filters(lp30k: bool, lp80k: bool, leftPlugIn: bool, rightPlugIn: bool)

  /** The low-pass key: 30 kHz takes precedence over 80 kHz. */
  function LowPassCode(f: Filters): string {
    if f.lp30k then "L1" else if f.lp80k then "L2" else "L0"
  }

  /** The high-pass (plug-in) key: left takes precedence over right. */
  function PlugInCode(f: Filters): string {
    if f.leftPlugIn then "H1" else if f.rightPlugIn then "H2" else "H0"
  }

  /** `filter_s` (hp8903.py:1142-1164). */
  function FilterField(f: Filters): string {
    LowPassCode(f) + PlugInCode(f)
  }

  /** `measurement` (hp8903.py:1156-1159): distortion ("M3") for the
      combo entries 0 and 2, AC level ("M1") for 1, 3 and 4. */
  function ModeCode(meas: int): string {
    if meas == 0 || meas == 2 then "M3"
    else if meas == 1 || meas == 3 || meas == 4 then "M1"
    else ""
  }

  /** `meas_unit` (hp8903.py:1161-1164): linear or logarithmic display. */
  function UnitCode(unit: int): string {
    if unit == 0 then "LN" else if unit == 1 then "LG" else ""
  }

  /** `rat` (hp8903.py:1170-1174): ratio on for 1, off for 2. */
  function RatioCode(ratio: int): string {
    if ratio == 1 then "R1" else if ratio == 2 then "R0" else ""
  }

  /** The fields of a program string, the two numbers as rendered text. */
  datatype Command = Command(freq: string, amp: string, mode: string, filter: string, unit: string, ratio: string)

  /** The program string of a command, fields in their fixed order. */
  function Render(c: Command): string {
    "FR" + (c.freq + ("HZAP" + (c.amp + ("VL" + (c.mode + (c.filter + (c.unit + (c.ratio + "T3"))))))))
  }

  /** The command `send_measurement` builds; `fmt` is `%.4E`. */
  function Compose(fmt: Double -> string, meas: int, unit: int, freq: Double, amp: Double,
                   filters: Filters, ratio: int): Command
  {
    Command(fmt(freq), fmt(amp), ModeCode(meas), FilterField(filters), UnitCode(unit), RatioCode(ratio))
  }

  /** `payload` (hp8903.py:1166-1177), concatenated as the source does;
      it is laid out as `Render` lays out its command, and what it carries
      is stated by `PayloadReadsBack`. */
  function Payload(fmt: Double -> string, meas: int, unit: int, freq: Double, amp: Double,
                   filters: Filters, ratio: int): (p: string)
    ensures p == Render(Compose(fmt, meas, unit, freq, amp, filters, ratio))
  {
    var sourceFreq := "FR" + fmt(freq) + "HZ";
    var sourceAmpl := "AP" + fmt(amp) + "VL";
    var payload := sourceFreq + sourceAmpl + ModeCode(meas) + FilterField(filters) + UnitCode(unit)
                   + RatioCode(ratio) + "T3";
    PayloadLayout(fmt(freq), fmt(amp), ModeCode(meas), FilterField(filters), UnitCode(unit), RatioCode(ratio));
    payload
  }

  lemma PayloadLayout(f: string, a: string, m: string, fl: string, u: string, r: string)
    ensures ("FR" + f + "HZ") + ("AP" + a + "VL") + m + fl + u + r + "T3"
         == Render(Command(f, a, m, fl, u, r))
  {
    var tail := m + (fl + (u + (r + "T3")));
    assert ("FR" + f + "HZ") + ("AP" + a + "VL") == "FR" + (f + ("HZAP" + (a + "VL")));
    assert ("FR" + f + "HZ") + ("AP" + a + "VL") + m + fl + u + r + "T3"
        == ("FR" + (f + ("HZAP" + (a + "VL")))) + tail;
  }

  /** The filter field is "L", the low-pass digit, "H", the plug-in digit;
      each digit names the first selected filter of its pair, 0 for none. */
  lemma FilterFieldSpec(f: Filters)
    ensures var s := FilterField(f);
      |s| == 4 && s[0] == 'L' && s[2] == 'H' &&
      (s[1] == '1' <==> f.lp30k) &&
      (s[1] == '2' <==> !f.lp30k && f.lp80k) &&
      (s[1] == '0' <==> !f.lp30k && !f.lp80k) &&
      (s[3] == '1' <==> f.leftPlugIn) &&
      (s[3] == '2' <==> !f.leftPlugIn && f.rightPlugIn) &&
      (s[3] == '0' <==> !f.leftPlugIn && !f.rightPlugIn)
    ensures f == Filters(true, false, false, true) ==> FilterField(f) == "L1H2"
    ensures f == Filters(false, false, false, false) ==> FilterField(f) == "L0H0"
  {
  }

  /** The mode, unit and ratio keys for every value of their axes. */
  lemma KeySpec(meas: int, unit: int, ratio: int)
    ensures ModeCode(meas) == "M3" <==> meas in {0, 2}
    ensures ModeCode(meas) == "M1" <==> meas in {1, 3, 4}
    ensures ModeCode(meas) == "" <==> meas !in {0, 1, 2, 3, 4}
    ensures UnitCode(unit) == "LN" <==> unit == 0
    ensures UnitCode(unit) == "LG" <==> unit == 1
    ensures UnitCode(unit) == "" <==> unit != 0 && unit != 1
    ensures RatioCode(ratio) == "R1" <==> ratio == 1
    ensures RatioCode(ratio) == "R0" <==> ratio == 2
    ensures RatioCode(ratio) == "" <==> ratio != 1 && ratio != 2
  {
  }

  // ---------------------------------------------------------------------
  // Reading a program string back
  // ---------------------------------------------------------------------

  /** `s` with the literal `lit` taken off its front, if it starts with it. */
  function Expect(s: string, lit: string): (r: Option<string>)
    ensures r.Some? ==> s == lit + r.value
  {
    if |lit| <= |s| && s[..|lit|] == lit then Some(s[|lit|..]) else None
  }

  /** `s` split before its first `c`. */
  function Until(s: string, c: char): (r: (string, string))
    ensures s == r.0 + r.1 && c !in r.0
    ensures r.1 == [] || r.1[0] == c
  {
    var k := IndexOf(s, c);
    (s[..k], s[k..])
  }

  /** An optional two-letter key led by `lead`. */
  function OptionalKey(s: string, lead: char): (r: (string, string))
    ensures s == r.0 + r.1
  {
    if |s| >= 2 && s[0] == lead then (s[..2], s[2..]) else ([], s)
  }

  /** The mode key, filter field, unit key and ratio key that end a program
      string, up to and including its closing "T3". */
  function ParseKeys(c: string): (r: Option<(string, string, string, string)>)
    ensures r.Some? ==> c == r.value.0 + (r.value.1 + (r.value.2 + (r.value.3 + "T3")))
  {
    var (mode, d) := OptionalKey(c, 'M');
    if |d| < 4 || d[0] != 'L' || d[2] != 'H' then None else
    var (filter, e) := (d[..4], d[4..]);
    assert d == filter + e;
    var (unit, g) := OptionalKey(e, 'L');
    var (ratio, h) := OptionalKey(g, 'R');
    if h == "T3" then Some((mode, filter, unit, ratio)) else None
  }

  /** Splits a program string into its fields; `None` when it is not laid
      out as `Render` lays it out. What it accepts is exactly the rendering
      of what it returns: the layout has no other spelling. */
  function ParseCommand(s: string): (r: Option<Command>)
    ensures r.Some? ==> Render(r.value) == s
  {
    var a := Expect(s, "FR");
    if a.None? then None else
    var (freq, b0) := Until(a.value, 'H');
    var b := Expect(b0, "HZAP");
    if b.None? then None else
    var (amp, c0) := Until(b.value, 'V');
    var c := Expect(c0, "VL");
    if c.None? then None else
    var keys := ParseKeys(c.value);
    if keys.None? then None else
    var (mode, filter, unit, ratio) := keys.value;
    Some(Command(freq, amp, mode, filter, unit, ratio))
  }

  /** The commands `send_measurement` can build, given text for the numbers
      that holds no 'H' and no 'V' (as `%.4E` output never does). */
  predicate WellFormed(c: Command) {
    'H' !in c.freq && 'V' !in c.amp &&
    (c.mode == "M3" || c.mode == "M1" || c.mode == "") &&
    |c.filter| == 4 && c.filter[0] == 'L' && c.filter[2] == 'H' &&
    (c.unit == "LN" || c.unit == "LG" || c.unit == "") &&
    (c.ratio == "R1" || c.ratio == "R0" || c.ratio == "")
  }

  lemma ExpectLiteral(lit: string, rest: string)
    ensures Expect(lit + rest, lit) == Some(rest)
  {
    assert (lit + rest)[..|lit|] == lit;
  }

  lemma UntilAt(a: string, b: string, c: char)
    requires c !in a && b != [] && b[0] == c
    ensures Until(a + b, c) == (a, b)
  {
    IndexOfAppend(a, b, c);
    assert IndexOf(b, c) == 0;
  }

  lemma OptionalKeyAt(key: string, rest: string, lead: char)
    requires key == [] || (|key| == 2 && key[0] == lead)
    requires rest != [] && rest[0] != lead
    ensures OptionalKey(key + rest, lead) == (key, rest)
  {
    if key == [] {
      assert key + rest == rest;
    } else {
      assert (key + rest)[..2] == key;
    }
  }

  /** The tail of a program string from the mode key on reads back. */
  lemma ParseTail(c: Command)
    requires WellFormed(c)
    ensures ParseKeys(c.mode + (c.filter + (c.unit + (c.ratio + "T3"))))
         == Some((c.mode, c.filter, c.unit, c.ratio))
  {
    var d := c.filter + (c.unit + (c.ratio + "T3"));
    assert d[0] == 'L';
    OptionalKeyAt(c.mode, d, 'M');
    assert d[..4] == c.filter && d[4..] == c.unit + (c.ratio + "T3");
    var e := c.unit + (c.ratio + "T3");
    assert e[0] == 'R' || e[0] == 'T' || e[0] == 'L';
    assert (c.ratio + "T3")[0] != 'L';
    OptionalKeyAt(c.unit, c.ratio + "T3", 'L');
    OptionalKeyAt(c.ratio, "T3", 'R');
  }

  /** Every program string `send_measurement` can build reads back as the
      command it was built from. */
  lemma {:induction false} ParseRender(c: Command)
    requires WellFormed(c)
    ensures ParseCommand(Render(c)) == Some(c)
  {
    var s := Render(c);
    var tail := c.mode + (c.filter + (c.unit + (c.ratio + "T3")));
    var b := c.amp + ("VL" + tail);
    var a := c.freq + ("HZAP" + b);
    ExpectLiteral("FR", a);
    UntilAt(c.freq, "HZAP" + b, 'H');
    ExpectLiteral("HZAP", b);
    UntilAt(c.amp, "VL" + tail, 'V');
    ExpectLiteral("VL", tail);
    ParseTail(c);
  }

  /** The request `send_measurement` writes carries, field by field, the
      two rendered numbers and the keys of its axes. */
  lemma PayloadReadsBack(fmt: Double -> string, meas: int, unit: int, freq: Double, amp: Double,
                         filters: Filters, ratio: int)
    requires 'H' !in fmt(freq) && 'V' !in fmt(amp)
    ensures ParseCommand(Payload(fmt, meas, unit, freq, amp, filters, ratio))
         == Some(Command(fmt(freq), fmt(amp), ModeCode(meas), FilterField(filters), UnitCode(unit), RatioCode(ratio)))
  {
    FilterFieldSpec(filters);
    ParseRender(Compose(fmt, meas, unit, freq, amp, filters, ratio));
  }

  // ---------------------------------------------------------------------
  // Decoding the reply
  // ---------------------------------------------------------------------

  /** `HP8903_errors`: the instrument's error codes and their meaning. */
  const ErrorTable: map<int, string> := map[
    10 := "Reading too large for display.",
    11 := "Calculated value out of range.",
    13 := "Notch cannot tune to input.",
    14 := "Input level exceeds instrument specifications.",
    17 := "Internal voltmeter cannot make measurement.",
    18 := "Source cannot tune as requested.",
    19 := "Cannot confirm source frequency.",
    20 := "Entered value out of range.",
    21 := "Invalid key sequence",
    22 := "Invalid Special Function prefix.",
    23 := "Invalid Special Function suffix.",
    24 := "Invalid HP-IB code.",
    25 := "Top and bottom plotter limits are identical.",
    26 := "RATIO not allowd in present mode.",
    30 := "Input overload detector tripped in range plot.",
    31 := "Cannot make measurement.",
    32 := "More than 255 points total in a sweep.",
    96 := "No signal sensed at input."]

  /** Readings above this value are error reports (hp8903.py:1191). */
  const Sentinel: Double := Finite(4000000000.0)

  /** What `send_measurement` returns: the reply text of a good reading,
      the failed read's `None`, or NaN for an instrument error, here with
      the code and the message it printed. */
  datatype Sample = Reading(text: string) | NoSample | InstrumentError(code: int, description: string)

  /** The decode of hp8903.py:1184-1198, `parse` standing for `float()`. */
  function Decode(parse: string -> Option<Double>, reply: Option<string>): Returned<Sample> {
    match reply
    case None => Returns(NoSample)
    case Some(samp) =>
      match parse(samp)
      case None => Raises(ValueError)
      case Some(v) =>
        if !Greater(v, Sentinel) then Returns(Reading(samp))
        else match ParseInt(Slice(samp, 4, 6))
          case None => Raises(ValueError)
          case Some(code) =>
            if code in ErrorTable then Returns(InstrumentError(code, ErrorTable[code]))
            else Raises(KeyError)
  }

  /** The cases of the decode, each with what it requires of the reply. */
  lemma DecodeCases(parse: string -> Option<Double>, reply: Option<string>)
    ensures var r := Decode(parse, reply);
      (r == Returns(NoSample) <==> reply.None?) &&
      (forall s :: r == Returns(Reading(s)) <==>
         reply == Some(s) && parse(s).Some? && !Greater(parse(s).value, Sentinel)) &&
      (r.Returns? && r.v.InstrumentError? ==>
         reply.Some? && parse(reply.value).Some? && Greater(parse(reply.value).value, Sentinel) &&
         ParseInt(Slice(reply.value, 4, 6)) == Some(r.v.code) &&
         r.v.code in ErrorTable && r.v.description == ErrorTable[r.v.code]) &&
      (r == Raises(KeyError) ==>
         reply.Some? && ParseInt(Slice(reply.value, 4, 6)).Some? &&
         ParseInt(Slice(reply.value, 4, 6)).value !in ErrorTable) &&
      (r.Raises? ==> reply.Some? && (r.e == ValueError || r.e == KeyError))
  {
  }

  /** Characters 4 and 5 of an error report read back as its code. */
  lemma ErrorCodeField(samp: string, code: nat)
    requires 10 <= code < 100 && |samp| >= 6 && samp[4..6] == Decimal(code)
    ensures ParseInt(Slice(samp, 4, 6)) == Some(code as int)
  {
    ParseDecimal(code);
  }

  /** An error report naming code `code` in characters 4 and 5 decodes to
      that code and its table entry, or raises `KeyError` when the table
      has no such entry. */
  lemma DecodeErrorReport(parse: string -> Option<Double>, samp: string, code: nat)
    requires 10 <= code < 100 && |samp| >= 6 && samp[4..6] == Decimal(code)
    requires parse(samp).Some? && Greater(parse(samp).value, Sentinel)
    ensures code in ErrorTable ==> Decode(parse, Some(samp)) == Returns(InstrumentError(code, ErrorTable[code]))
    ensures code !in ErrorTable ==> Decode(parse, Some(samp)) == Raises(KeyError)
  {
    ErrorCodeField(samp, code);
    DecodeCode(parse, samp, code);
  }

  lemma DecodeCode(parse: string -> Option<Double>, samp: string, code: int)
    requires ParseInt(Slice(samp, 4, 6)) == Some(code)
    requires parse(samp).Some? && Greater(parse(samp).value, Sentinel)
    ensures Decode(parse, Some(samp))
         == if code in ErrorTable then Returns(InstrumentError(code, ErrorTable[code])) else Raises(KeyError)
  {
  }

  /** `float()` applied to what `send_measurement` returned, as `run_test`
      does: NaN for an instrument error, `TypeError` for `None`. */
  function ToFloat(parse: string -> Option<Double>, s: Sample): Returned<Double> {
    match s
    case Reading(text) => if parse(text).Some? then Returns(parse(text).value) else Raises(ValueError)
    case NoSample => Raises(TypeError)
    case InstrumentError(_, _) => Returns(NaN)
  }

  /** The values `run_test` plots: a decoded sample converts without a
      `ValueError`; it is NaN for an error report, never above the sentinel
      otherwise, and only a failed read makes the conversion raise. */
  lemma DecodedToFloat(parse: string -> Option<Double>, reply: Option<string>)
    requires Decode(parse, reply).Returns?
    ensures var s := Decode(parse, reply).v;
      var y := ToFloat(parse, s);
      (y.Raises? <==> reply.None?) &&
      (y.Raises? ==> y.e == TypeError) &&
      (s.InstrumentError? ==> y == Returns(NaN)) &&
      (y.Returns? ==> !Greater(y.v, Sentinel))
  {
  }
}
