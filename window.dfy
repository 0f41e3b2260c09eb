/** The instrument logic of `HP8903BWindow` (hp8903.py:428-1377) with the
    GTK widgets taken away: connecting to the analyzer through a bridge
    adapter (`setup_gpib`, `close_gpib`, `init_hp8903`), one measurement
    exchange (`send_measurement`) and the measurement run (`run_test`).

    What the widgets would supply (the adapter chosen, the address, the
    filter boxes, the source settings, the sweep points already computed
    with `log10`/`linspace`) is passed in as parameters. */
module Window {
  import opened Py
  import opened Serial
  import opened Polling
  import opened Adapters
  import opened Codec

  // ---------------------------------------------------------------------
  // One exchange with the analyzer, as a function of the port's state
  // ---------------------------------------------------------------------

  /** The arguments of one `send_measurement` call. */
  datatype Request = Request(meas: int, unit: int, freq: Double, amp: Double, filters: Filters, ratio: int)

  function RequestPayload(fmt: Double -> string, q: Request): string {
    Payload(fmt, q.meas, q.unit, q.freq, q.amp, q.filters, q.ratio)
  }

  /** What the exchanges of a run depend on: the adapter, whether its port
      is open, the port's clock and the float routines. */
  datatype Link = Link(b: Bridge, open: bool, clock: Clock, text: FloatText)

  /** What one request writes on an open adapter: its payload, then the
      adapter's read preamble. */
  function RequestWrites(l: Link, q: Request): seq<string> {
    [Frame(l.b, RequestPayload(l.text.format, q))] + ReadPreamble(l.b)
  }

  /** The same, as one function value. */
  function WritesOf(l: Link): Request -> seq<string> {
    (q: Request) => RequestWrites(l, q)
  }

  /** The outcome of one exchange: what `send_measurement` returns or
      raises, the port's receive state after it, and what it wrote. */
  datatype Exchanged = Exchanged(result: Returned<Sample>, wire: Wire, sent: seq<string>)

  /** `send_measurement` (hp8903.py:1136-1198) on receive state `w`: the
      payload is written through the adapter, then a terminator-mode read
      with a 2500 ms timeout and the adapter's default terminator is
      decoded. On a closed adapter nothing is written and the failed read's
      `None` is returned. */
  function Exchange(l: Link, q: Request, w: Wire): Exchanged {
    if !l.open then Exchanged(Returns(NoSample), w, [])
    else
      var f := ReadTerminated(l.clock, 2500, DefaultEnd(l.b), w);
      Exchanged(Decode(l.text.parse, f.result), f.wire, RequestWrites(l, q))
  }

  /** The exchanges of the link, as one function value. */
  function ExchangeOf(l: Link): (Request, Wire) -> Exchanged {
    (q: Request, w: Wire) => Exchange(l, q, w)
  }

  /** `ex` makes the exchanges of `l`: it agrees with `Exchange` on every
      request and receive state. The run is defined for any exchange
      function; the window's methods take one that agrees with the link. */
  ghost predicate Realizes(l: Link, ex: (Request, Wire) -> Exchanged) {
    forall q: Request, w: Wire {:trigger Exchange(l, q, w)} :: ex(q, w) == Exchange(l, q, w)
  }

  lemma ExchangeOfRealizes(l: Link)
    ensures Realizes(l, ExchangeOf(l))
  {
    forall q: Request, w: Wire ensures ExchangeOf(l)(q, w) == Exchange(l, q, w) {
    }
  }

  // ---------------------------------------------------------------------
  // The measurement run, for any exchange function
  // ---------------------------------------------------------------------

  /** The run settings read from the widgets: measurement and unit combo
      entries, source frequency and amplitude, the start amplitude of an
      amplitude sweep, and the filter boxes. */
  datatype Setting = Setting(meas: int, units: int, center: Double, amp: Double, startAmp: Double, filters: Filters)

  /** The measurements `run_test` makes before the sweep and discards
      (hp8903.py:1048-1057). */
  function Preliminary(s: Setting): seq<Request> {
    if s.meas == 0 || s.meas == 1 then
      [Request(s.meas, s.units, s.center, s.amp, s.filters, 2)]
    else if s.meas == 2 || s.meas == 3 then
      [Request(s.meas, s.units, s.center, s.amp, s.filters, 0),
       Request(s.meas, s.units, s.center, s.amp, s.filters, 1)]
    else if s.meas == 4 then
      [Request(s.meas, s.units, s.center, s.startAmp, s.filters, 2)]
    else []
  }

  /** The measurement of one sweep point: a frequency for the modes 0 to 3
      (hp8903.py:1059-1066), an amplitude for mode 4 (hp8903.py:1067-1074). */
  function StepRequest(s: Setting, p: Double): Request {
    if s.meas == 4 then Request(s.meas, s.units, s.center, p, s.filters, 0)
    else Request(s.meas, s.units, p, s.amp, s.filters, 0)
  }

  /** The points swept: none outside the five measurement modes. */
  function SweepPoints(s: Setting, pts: seq<Double>): seq<Double> {
    if 0 <= s.meas <= 4 then pts else []
  }

  /** A run so far: the plotted `x` and `y`, the receive state, everything
      written to the port, and the exception that ended the run, if any. */
  datatype Run = Run(x: seq<Double>, y: seq<Double>, wire: Wire, sent: seq<string>, error: Option<Exception>)

  /** The preliminary exchanges, made by `ex`, from run state `r` on; an
      exception ends the run. */
  function PrelimFrom(ex: (Request, Wire) -> Exchanged, qs: seq<Request>, r: Run): Run
    decreases |qs|
  {
    if qs == [] then r
    else
      var e := ex(qs[0], r.wire);
      var r1 := r.(wire := e.wire, sent := r.sent + e.sent);
      if e.result.Raises? then r1.(error := Some(e.result.e))
      else PrelimFrom(ex, qs[1..], r1)
  }

  /** One sweep point: the exchange, then the point appended to `x` and
      `float()` of the sample to `y`; either step may raise. */
  function StepRun(parse: string -> Option<Double>, ex: (Request, Wire) -> Exchanged,
                   s: Setting, p: Double, r: Run): Run
  {
    var e := ex(StepRequest(s, p), r.wire);
    var r1 := r.(wire := e.wire, sent := r.sent + e.sent);
    if e.result.Raises? then r1.(error := Some(e.result.e))
    else
      var v := ToFloat(parse, e.result.v);
      if v.Raises? then r1.(x := r.x + [p], error := Some(v.e))
      else r1.(x := r.x + [p], y := r.y + [v.v])
  }

  /** The sweep from run state `r` on, point by point, until one raises. */
  function StepsFrom(parse: string -> Option<Double>, ex: (Request, Wire) -> Exchanged,
                     s: Setting, pts: seq<Double>, r: Run): Run
    decreases |pts|
  {
    if pts == [] then r
    else
      var r1 := StepRun(parse, ex, s, pts[0], r);
      if r1.error.Some? then r1 else StepsFrom(parse, ex, s, pts[1..], r1)
  }

  /** A frequency sweep with no points: `run_test` reads the first point
      for the plot's axis limits (hp8903.py:1027) and raises `IndexError`
      before it makes any measurement. */
  predicate NoFrequencyPoints(s: Setting, pts: seq<Double>) {
    0 <= s.meas < 4 && pts == []
  }

  /** `run_test` (hp8903.py:974-1096) from receive state `w` and written
      log `log`, with the exchanges made by `ex`. */
  function RunWith(parse: string -> Option<Double>, ex: (Request, Wire) -> Exchanged,
                   s: Setting, pts: seq<Double>, w: Wire, log: seq<string>): Run
  {
    if NoFrequencyPoints(s, pts) then Run([], [], w, log, Some(IndexError)) else
    var p := PrelimFrom(ex, Preliminary(s), Run([], [], w, log, None));
    if p.error.Some? then p else StepsFrom(parse, ex, s, SweepPoints(s, pts), p)
  }

  // ---------------------------------------------------------------------
  // Properties of the run
  // ---------------------------------------------------------------------

  /** What a run relies on of one exchange `e` of request `q` on receive
      state `w`: a sample it returns converts to a value no larger than the
      error sentinel, or raises; on a closed adapter it returns the failed
      read's `None` and changes nothing; on an open one it writes `send(q)`. */
  predicate ExchangeKeeps(parse: string -> Option<Double>, open: bool, send: Request -> seq<string>,
                          q: Request, w: Wire, e: Exchanged)
  {
    (e.result.Returns? && ToFloat(parse, e.result.v).Returns? ==>
       !Greater(ToFloat(parse, e.result.v).v, Sentinel)) &&
    (!open ==> e == Exchanged(Returns(NoSample), w, [])) &&
    (open ==> e.sent == send(q))
  }

  /** Every exchange of `ex` keeps `ExchangeKeeps`. */
  ghost predicate Proper(parse: string -> Option<Double>, open: bool, send: Request -> seq<string>,
                         ex: (Request, Wire) -> Exchanged)
  {
    forall q, w :: ExchangeKeeps(parse, open, send, q, w, ex(q, w))
  }

  /** `send_measurement` keeps what a run relies on. */
  lemma ExchangeProper(l: Link, q: Request, w: Wire)
    ensures ExchangeKeeps(l.text.parse, l.open, WritesOf(l), q, w, Exchange(l, q, w))
  {
    if l.open {
      var f := ReadTerminated(l.clock, 2500, DefaultEnd(l.b), w);
      if Decode(l.text.parse, f.result).Returns? {
        DecodedToFloat(l.text.parse, f.result);
      }
    }
  }

  /** Exchanges that agree with the link keep what a run relies on. */
  lemma RealizesProper(l: Link, ex: (Request, Wire) -> Exchanged)
    requires Realizes(l, ex)
    ensures Proper(l.text.parse, l.open, WritesOf(l), ex)
  {
    forall q, w ensures ExchangeKeeps(l.text.parse, l.open, WritesOf(l), q, w, ex(q, w)) {
      assert ex(q, w) == Exchange(l, q, w);
      ExchangeProper(l, q, w);
    }
  }

  /** The preliminary measurements by mode: one with ratio off for the
      modes 0 and 1, one without and one with ratio for 2 and 3, one with
      ratio off at the start amplitude for 4, none otherwise; all at the
      source frequency. */
  lemma PreliminarySpec(s: Setting)
    ensures var qs := Preliminary(s);
      (|qs| == 1 <==> s.meas in {0, 1, 4}) &&
      (|qs| == 2 <==> s.meas in {2, 3}) &&
      (|qs| == 0 <==> s.meas !in {0, 1, 2, 3, 4}) &&
      (forall i :: 0 <= i < |qs| ==>
         qs[i].meas == s.meas && qs[i].unit == s.units && qs[i].freq == s.center && qs[i].filters == s.filters) &&
      (s.meas in {0, 1} ==> qs[0].ratio == 2 && qs[0].amp == s.amp) &&
      (s.meas in {2, 3} ==> qs[0].ratio == 0 && qs[1].ratio == 1 && qs[0].amp == s.amp && qs[1].amp == s.amp) &&
      (s.meas == 4 ==> qs[0].ratio == 2 && qs[0].amp == s.startAmp)
  {
  }

  /** What a stretch of exchanges writes on an open adapter, request by
      request. */
  function Sends(send: Request -> seq<string>, qs: seq<Request>): seq<string> {
    if qs == [] then [] else send(qs[0]) + Sends(send, qs[1..])
  }

  function StepRequests(s: Setting, pts: seq<Double>): (qs: seq<Request>)
    ensures |qs| == |pts| && forall i :: 0 <= i < |pts| ==> qs[i] == StepRequest(s, pts[i])
  {
    if pts == [] then [] else [StepRequest(s, pts[0])] + StepRequests(s, pts[1..])
  }

  lemma {:induction false} SendsAppend(send: Request -> seq<string>, a: seq<Request>, b: seq<Request>)
    ensures Sends(send, a + b) == Sends(send, a) + Sends(send, b)
  {
    if a == [] {
      assert a + b == b;
    } else {
      assert (a + b)[1..] == a[1..] + b;
      SendsAppend(send, a[1..], b);
    }
  }

  /** What the sweep from `r` plots by the time it reaches `e`: `x` grows by
      a prefix of the points, in order; `y` by at most as many values, one
      fewer only when the run ended on an exception; no value plotted above
      the error sentinel; every point when the run did not raise. */
  predicate Plots(r: Run, pts: seq<Double>, e: Run) {
    var n := |e.x| - |r.x|;
    |r.x| <= |e.x| <= |r.x| + |pts| && e.x == r.x + pts[..n] &&
    |r.y| <= |e.y| && e.y[..|r.y|] == r.y &&
    (|e.y| - |r.y| == n || (|e.y| - |r.y| + 1 == n && e.error.Some?)) &&
    (forall i :: |r.y| <= i < |e.y| ==> !Greater(e.y[i], Sentinel)) &&
    (e.error.None? ==> n == |pts| && |e.y| - |r.y| == n)
  }

  /** A point plotted with value `v` extends what the rest of the sweep plots. */
  lemma PlotsStep(r: Run, r1: Run, pts: seq<Double>, v: Double, e: Run)
    requires pts != [] && r1.x == r.x + [pts[0]] && r1.y == r.y + [v] && !Greater(v, Sentinel)
    requires Plots(r1, pts[1..], e)
    ensures Plots(r, pts, e)
  {
    var n := |e.x| - |r1.x|;
    assert r1.x + pts[1..][..n] == r.x + pts[..n + 1];
    assert e.y[..|r.y|] == e.y[..|r1.y|][..|r.y|];
    assert e.y[|r.y|] == e.y[..|r1.y|][|r.y|];
  }

  /** A sweep that ends on an exception, before or after appending a point
      to `x` but before `y`. */
  lemma PlotsStop(r: Run, pts: seq<Double>, e: Run)
    requires e.error.Some? && e.y == r.y
    requires e.x == r.x || (pts != [] && e.x == r.x + [pts[0]])
    ensures Plots(r, pts, e)
  {
    if e.x == r.x {
      assert pts[..0] == [];
    } else {
      assert pts[..1] == [pts[0]];
    }
  }

  lemma {:induction false} StepsFromPlot(parse: string -> Option<Double>, open: bool, send: Request -> seq<string>,
                                         ex: (Request, Wire) -> Exchanged, s: Setting, pts: seq<Double>, r: Run)
    requires Proper(parse, open, send, ex) && r.error.None?
    ensures Plots(r, pts, StepsFrom(parse, ex, s, pts, r))
    decreases |pts|
  {
    if pts == [] {
      assert pts[..0] == [];
      return;
    }
    var q := StepRequest(s, pts[0]);
    assert ExchangeKeeps(parse, open, send, q, r.wire, ex(q, r.wire));
    var r1 := StepRun(parse, ex, s, pts[0], r);
    if r1.error.Some? {
      PlotsStop(r, pts, r1);
    } else {
      StepsFromPlot(parse, open, send, ex, s, pts[1..], r1);
      PlotsStep(r, r1, pts, r1.y[|r.y|], StepsFrom(parse, ex, s, pts[1..], r1));
    }
  }

  /** With the adapter open, a sweep that ends normally writes exactly the
      requests of the points, in order. */
  lemma {:induction false} StepsFromSends(parse: string -> Option<Double>, send: Request -> seq<string>,
                                          ex: (Request, Wire) -> Exchanged, s: Setting, pts: seq<Double>, r: Run)
    requires Proper(parse, true, send, ex)
    ensures var e := StepsFrom(parse, ex, s, pts, r);
      e.error.None? ==> e.sent == r.sent + Sends(send, StepRequests(s, pts))
    decreases |pts|
  {
    if pts != [] {
      var q := StepRequest(s, pts[0]);
      var e0 := ex(q, r.wire);
      assert ExchangeKeeps(parse, true, send, q, r.wire, e0);
      var r1 := StepRun(parse, ex, s, pts[0], r);
      if r1.error.None? {
        StepsFromSends(parse, send, ex, s, pts[1..], r1);
        var e := StepsFrom(parse, ex, s, pts[1..], r1);
        if e.error.None? {
          var rest := Sends(send, StepRequests(s, pts[1..]));
          assert StepRequests(s, pts) == [q] + StepRequests(s, pts[1..]);
          assert Sends(send, StepRequests(s, pts)) == send(q) + rest;
          assert e.sent == (r.sent + send(q)) + rest;
        }
      }
    }
  }

  /** A closed adapter ends the sweep at its first point with the
      `TypeError` of `float(None)`, the point plotted in `x` only, and
      nothing written. */
  lemma StepsFromClosed(parse: string -> Option<Double>, send: Request -> seq<string>,
                        ex: (Request, Wire) -> Exchanged, s: Setting, pts: seq<Double>, r: Run)
    requires Proper(parse, false, send, ex) && pts != []
    ensures var e := StepsFrom(parse, ex, s, pts, r);
      e.error == Some(TypeError) && e.x == r.x + [pts[0]] && e.y == r.y && e.sent == r.sent
  {
    var q := StepRequest(s, pts[0]);
    assert ExchangeKeeps(parse, false, send, q, r.wire, ex(q, r.wire));
    assert r.sent + [] == r.sent;
  }

  /** The preliminary exchanges plot nothing; unless one raised, they write
      exactly their requests when the adapter is open. */
  lemma {:induction false} PrelimFromSpec(parse: string -> Option<Double>, open: bool, send: Request -> seq<string>,
                                          ex: (Request, Wire) -> Exchanged, qs: seq<Request>, r: Run)
    requires Proper(parse, open, send, ex) && r.error.None?
    ensures var p := PrelimFrom(ex, qs, r);
      p.x == r.x && p.y == r.y &&
      (p.error.None? && open ==> p.sent == r.sent + Sends(send, qs)) &&
      (!open ==> p == r)
    decreases |qs|
  {
    if qs != [] {
      var e0 := ex(qs[0], r.wire);
      assert ExchangeKeeps(parse, open, send, qs[0], r.wire, e0);
      var r1 := r.(wire := e0.wire, sent := r.sent + e0.sent);
      if e0.result.Returns? {
        PrelimFromSpec(parse, open, send, ex, qs[1..], r1);
        if !open {
          assert r1 == r;
        }
      }
    }
  }

  /** The whole run, for any exchanges that keep `ExchangeKeeps`. */
  lemma RunWithSpec(parse: string -> Option<Double>, open: bool, send: Request -> seq<string>,
                    ex: (Request, Wire) -> Exchanged, s: Setting, pts: seq<Double>, w: Wire, log: seq<string>)
    requires Proper(parse, open, send, ex)
    ensures var r := RunWith(parse, ex, s, pts, w, log);
      var ps := SweepPoints(s, pts);
      Plots(Run([], [], w, log, None), ps, r) &&
      (r.error.None? && open ==> r.sent == log + Sends(send, Preliminary(s) + StepRequests(s, ps))) &&
      (!open && ps != [] ==> r.error == Some(TypeError) && r.x == [ps[0]] && r.y == [] && r.sent == log) &&
      (NoFrequencyPoints(s, pts) ==> r == Run([], [], w, log, Some(IndexError)))
  {
    var r0 := Run([], [], w, log, None);
    var ps := SweepPoints(s, pts);
    if NoFrequencyPoints(s, pts) {
      return;
    }
    PrelimFromSpec(parse, open, send, ex, Preliminary(s), r0);
    var p := PrelimFrom(ex, Preliminary(s), r0);
    if p.error.Some? {
      PlotsStop(r0, ps, p);
      return;
    }
    StepsFromPlot(parse, open, send, ex, s, ps, p);
    var e := StepsFrom(parse, ex, s, ps, p);
    if !open && ps != [] {
      StepsFromClosed(parse, send, ex, s, ps, p);
    }
    if open && e.error.None? {
      StepsFromSends(parse, send, ex, s, ps, p);
      var a, b := Sends(send, Preliminary(s)), Sends(send, StepRequests(s, ps));
      SendsAppend(send, Preliminary(s), StepRequests(s, ps));
      assert p.sent == log + a;
      assert e.sent == log + a + b;
    }
  }

  /** The receive state each of the exchanges `qs` starts from when `ex`
      makes them one after another from `w`, then the state after the last. */
  function Wires(ex: (Request, Wire) -> Exchanged, qs: seq<Request>, w: Wire): (ws: seq<Wire>)
    ensures |ws| == |qs| + 1 && ws[0] == w
    decreases |qs|
  {
    if qs == [] then [w] else [w] + Wires(ex, qs[1..], ex(qs[0], w).wire)
  }

  /** `float()` of the sample the exchange `e` returned is `v`. */
  predicate ReadsAs(parse: string -> Option<Double>, e: Exchanged, v: Double) {
    e.result.Returns? && ToFloat(parse, e.result.v) == Returns(v)
  }

  /** `ys` are, in order, the values of the exchanges `qs[from..]` when
      `ex` makes all of `qs` one after another from `w`. */
  predicate Samples(parse: string -> Option<Double>, ex: (Request, Wire) -> Exchanged,
                    qs: seq<Request>, w: Wire, from: nat, ys: seq<Double>)
  {
    from + |ys| <= |qs| &&
    var ws := Wires(ex, qs, w);
    forall i :: 0 <= i < |ys| ==> ReadsAs(parse, ex(qs[from + i], ws[from + i]), ys[i])
  }

  /** One exchange read as `v`, then the exchanges after it. */
  lemma SamplesCons(parse: string -> Option<Double>, ex: (Request, Wire) -> Exchanged,
                    q: Request, qs: seq<Request>, w: Wire, v: Double, ys: seq<Double>)
    requires ReadsAs(parse, ex(q, w), v) && Samples(parse, ex, qs, ex(q, w).wire, 0, ys)
    ensures Samples(parse, ex, [q] + qs, w, 0, [v] + ys)
  {
    assert ([q] + qs)[1..] == qs;
    var ws := Wires(ex, [q] + qs, w);
    var rest := Wires(ex, qs, ex(q, w).wire);
    assert ws == [w] + rest;
    forall i | 0 <= i < |[v] + ys|
      ensures ReadsAs(parse, ex(([q] + qs)[i], ws[i]), ([v] + ys)[i])
    {
      if i > 0 {
        assert ([q] + qs)[i] == qs[i - 1] && ws[i] == rest[i - 1] && ([v] + ys)[i] == ys[i - 1];
      }
    }
  }

  /** An exchange made first shifts the values of the ones after it by one. */
  lemma SamplesShiftOne(parse: string -> Option<Double>, ex: (Request, Wire) -> Exchanged,
                        q: Request, qs: seq<Request>, w: Wire, from: nat, ys: seq<Double>)
    requires Samples(parse, ex, qs, ex(q, w).wire, from, ys)
    ensures Samples(parse, ex, [q] + qs, w, from + 1, ys)
  {
    assert ([q] + qs)[1..] == qs;
    var ws := Wires(ex, [q] + qs, w);
    var rest := Wires(ex, qs, ex(q, w).wire);
    assert ws == [w] + rest;
    forall i | 0 <= i < |ys|
      ensures ReadsAs(parse, ex(([q] + qs)[from + 1 + i], ws[from + 1 + i]), ys[i])
    {
      assert ([q] + qs)[from + 1 + i] == qs[from + i] && ws[from + 1 + i] == rest[from + i];
    }
  }

  /** The values of exchanges made after the exchanges `pre`. */
  lemma {:induction false} SamplesAfter(parse: string -> Option<Double>, ex: (Request, Wire) -> Exchanged,
                                        pre: seq<Request>, qs: seq<Request>, w: Wire, ys: seq<Double>)
    requires Samples(parse, ex, qs, Wires(ex, pre, w)[|pre|], 0, ys)
    ensures Samples(parse, ex, pre + qs, w, |pre|, ys)
    decreases |pre|
  {
    if pre == [] {
      assert pre + qs == qs;
    } else {
      var w1 := ex(pre[0], w).wire;
      assert Wires(ex, pre, w)[|pre|] == Wires(ex, pre[1..], w1)[|pre[1..]|];
      SamplesAfter(parse, ex, pre[1..], qs, w1, ys);
      assert pre + qs == [pre[0]] + (pre[1..] + qs);
      SamplesShiftOne(parse, ex, pre[0], pre[1..] + qs, w, |pre[1..]|, ys);
    }
  }

  /** The sweep's values: each point's value is `float()` of the sample
      its own exchange returned, each exchange made on the receive state
      the previous one left. */
  lemma {:induction false} StepsFromValues(parse: string -> Option<Double>, ex: (Request, Wire) -> Exchanged,
                                           s: Setting, pts: seq<Double>, r: Run)
    requires r.error.None?
    ensures var e := StepsFrom(parse, ex, s, pts, r);
      |r.y| <= |e.y| && e.y[..|r.y|] == r.y &&
      Samples(parse, ex, StepRequests(s, pts), r.wire, 0, e.y[|r.y|..])
    decreases |pts|
  {
    var e := StepsFrom(parse, ex, s, pts, r);
    if pts == [] {
      assert e.y[|r.y|..] == [];
      return;
    }
    var q := StepRequest(s, pts[0]);
    var r1 := StepRun(parse, ex, s, pts[0], r);
    if r1.error.Some? {
      assert e == r1 && r1.y == r.y;
      assert e.y[|r.y|..] == [];
    } else {
      StepsFromValues(parse, ex, s, pts[1..], r1);
      assert r1.y == r.y + [r1.y[|r.y|]];
      assert e.y[..|r.y|] == e.y[..|r1.y|][..|r.y|];
      assert e.y[|r.y|..] == [r1.y[|r.y|]] + e.y[|r1.y|..];
      assert StepRequests(s, pts) == [q] + StepRequests(s, pts[1..]);
      SamplesCons(parse, ex, q, StepRequests(s, pts[1..]), r.wire, r1.y[|r.y|], e.y[|r1.y|..]);
    }
  }

  /** The preliminary exchanges leave the plot alone; when none raised,
      the receive state is the one they leave made in order. */
  lemma {:induction false} PrelimFromWire(ex: (Request, Wire) -> Exchanged, qs: seq<Request>, r: Run)
    ensures var p := PrelimFrom(ex, qs, r);
      p.x == r.x && p.y == r.y && (p.error.None? ==> p.wire == Wires(ex, qs, r.wire)[|qs|])
    decreases |qs|
  {
    if qs != [] {
      var e0 := ex(qs[0], r.wire);
      PrelimFromWire(ex, qs[1..], r.(wire := e0.wire, sent := r.sent + e0.sent));
    }
  }

  /** The values a run plots: the i-th is `float()` of the sample of the
      i-th sweep exchange, when `ex` makes the preliminary exchanges and
      then one exchange per point, in order, each on the receive state the
      one before it left. */
  lemma RunWithValues(parse: string -> Option<Double>, ex: (Request, Wire) -> Exchanged,
                      s: Setting, pts: seq<Double>, w: Wire, log: seq<string>)
    ensures var r := RunWith(parse, ex, s, pts, w, log);
      var pre := Preliminary(s);
      Samples(parse, ex, pre + StepRequests(s, SweepPoints(s, pts)), w, |pre|, r.y)
  {
    var pre, steps := Preliminary(s), StepRequests(s, SweepPoints(s, pts));
    var r0 := Run([], [], w, log, None);
    PrelimFromWire(ex, pre, r0);
    var p := PrelimFrom(ex, pre, r0);
    var r := RunWith(parse, ex, s, pts, w, log);
    if NoFrequencyPoints(s, pts) || p.error.Some? {
      assert r.y == [];
    } else {
      StepsFromValues(parse, ex, s, SweepPoints(s, pts), p);
      assert r.y[|p.y|..] == r.y;
      SamplesAfter(parse, ex, pre, steps, w, r.y);
    }
  }

  /** The whole run: `x` holds the first sweep points in order and `y`
      their values, one per point (`float()` of the sample of that point's
      exchange, as `Samples` says), except that a `float()` that raised
      leaves `x` one longer; no plotted value is above the sentinel; a run
      that ends normally covers every point. With the adapter open and a
      normal end, what it wrote is the preliminary requests, then one
      request per point, in order. A closed adapter writes nothing and
      stops the first point with `TypeError`. A frequency sweep with no
      points raises `IndexError` before anything is plotted or written. */
  lemma RunOutcomeSpec(l: Link, ex: (Request, Wire) -> Exchanged, s: Setting, pts: seq<Double>,
                       w: Wire, log: seq<string>)
    requires Realizes(l, ex)
    ensures var r := RunWith(l.text.parse, ex, s, pts, w, log);
      var ps := SweepPoints(s, pts);
      |r.x| <= |ps| && r.x == ps[..|r.x|] &&
      (|r.y| == |r.x| || (|r.y| + 1 == |r.x| && r.error.Some?)) &&
      (forall i :: 0 <= i < |r.y| ==> !Greater(r.y[i], Sentinel)) &&
      (r.error.None? ==> |r.x| == |ps| && |r.y| == |ps|) &&
      (r.error.None? && l.open ==>
         r.sent == log + Sends(WritesOf(l), Preliminary(s) + StepRequests(s, ps))) &&
      (!l.open && ps != [] ==> r.error == Some(TypeError) && r.x == [ps[0]] && r.y == [] && r.sent == log) &&
      (NoFrequencyPoints(s, pts) ==> r == Run([], [], w, log, Some(IndexError))) &&
      Samples(l.text.parse, ex, Preliminary(s) + StepRequests(s, ps), w, |Preliminary(s)|, r.y)
  {
    RunWithValues(l.text.parse, ex, s, pts, w, log);
    RealizesProper(l, ex);
    RunWithSpec(l.text.parse, l.open, WritesOf(l), ex, s, pts, w, log);
    var r := RunWith(l.text.parse, ex, s, pts, w, log);
    assert r.x == [] + r.x && r.y[..0] == [];
  }

  // ---------------------------------------------------------------------
  // Connecting, as a function of the port's state
  // ---------------------------------------------------------------------

  /** The program string `init_hp8903` sends (hp8903.py:1124): 1 kHz at
      0.1 V, AC level, no filters, linear, trigger. */
  const InitCommand: string := "FR1000.0HZAP0.100E+00VLM1LNL0LNT3"

  /** The entries of `HP8903_GPIB_devices` (hp8903.py:424-425), in order. */
  datatype Model = GalvantModel | NiModel

  /** What `open` writes through `b` when the port opened. */
  function OpenWrites(b: Bridge): seq<string> {
    if b.Galvant? then MapFrame(OpenCommands(b.galvant.gpibAddr)) else []
  }

  /** `implements_addr` tells the truth: an adapter claims to set the
      instrument address exactly when opening it sends the address, as the
      fifth of its configuration commands; the other configures nothing. */
  lemma ImplementsAddrSendsAddress(b: Bridge)
    ensures ImplementsAddr(b) ==>
      |OpenWrites(b)| == 6 && OpenWrites(b)[4] == GalvantFrame("++addr " + Decimal(b.galvant.gpibAddr))
    ensures !ImplementsAddr(b) ==> OpenWrites(b) == []
  {
  }

  /** What `close` writes through `b` while it is open. */
  function CloseWrites(b: Bridge): seq<string> {
    if b.Galvant? then MapFrame(CloseCommands) else []
  }

  /** The receive state after `test` on an open adapter. */
  function TestWire(b: Bridge, clock: Clock, w: Wire): Wire {
    if b.Ni? then w else ReadTerminated(clock, 1000, '\r', w).wire
  }

  /** `init_hp8903` (hp8903.py:1121-1134) on an open adapter: the
      adapter's `flush_input`, the program string, then a 12-byte read with
      a 5000 ms timeout. */
  function InitRead(b: Bridge, clock: Clock, w: Wire): Finish {
    ReadFixed(clock, 12, 5000, if FlushesInput(b) then w.(input := []) else w)
  }

  function InitWrites(b: Bridge): seq<string> {
    [Frame(b, InitCommand)] + ReadPreamble(b)
  }

  /** How `setup_gpib` ends: whether it succeeded, whether the port is left
      open, the receive state, and everything written to the port. */
  datatype Connect = Connect(ok: bool, open: bool, wire: Wire, sent: seq<string>)

  /** The end of a connection whose test passed (hp8903.py:902-915), from
      receive state `w` and written log `log`: `flush_input`,
      `init_hp8903`, and `close` when the instrument did not answer. */
  function Initialized(b: Bridge, clock: Clock, w: Wire, log: seq<string>): (c: Connect)
    ensures |log| <= |c.sent| && c.sent[..|log|] == log
  {
    var f := InitRead(b, clock, w);
    if f.result.Some? then Connect(true, true, f.wire, log + InitWrites(b))
    else Connect(false, false, f.wire, log + InitWrites(b) + CloseWrites(b))
  }

  /** A connection after the port opened (hp8903.py:890-915): `test`,
      then the initialization when it passed; a failed test leaves the
      adapter open. */
  function Tested(b: Bridge, clock: Clock, w: Wire, log: seq<string>): (c: Connect)
    ensures |log| <= |c.sent| && c.sent[..|log|] == log
  {
    if !TestPasses(b, clock, w) then Connect(false, true, TestWire(b, clock, w), log + TestCommands(b))
    else Initialized(b, clock, TestWire(b, clock, w), log + TestCommands(b))
  }

  /** `setup_gpib` (hp8903.py:845-946) for adapter `b` on a port that can
      be opened exactly when `present`, from receive state `w` and written
      log `log`: open, then `test`, then `flush_input` and `init_hp8903`; a
      failed initialization closes the adapter again, a failed test leaves
      it open. */
  function Connection(b: Bridge, present: bool, clock: Clock, w: Wire, log: seq<string>): Connect {
    if !present then Connect(false, false, w, log)
    else Tested(b, clock, w.(input := []), log + OpenWrites(b))
  }

  /** A connection succeeds exactly when the port opens, the adapter's test
      passes and the instrument answers the initial program string with 12
      bytes in time; it is then left open, and what went out is the
      adapter's configuration, its test, then the program string, in that
      order. The NI adapter's test cannot fail; a Galvant adapter whose
      test failed is left open, one whose initialization failed is closed. */
  lemma ConnectionSpec(b: Bridge, present: bool, clock: Clock, w: Wire, log: seq<string>)
    ensures var c := Connection(b, present, clock, w, log);
      var w1 := w.(input := []);
      (c.ok <==> present && TestPasses(b, clock, w1) && InitRead(b, clock, TestWire(b, clock, w1)).result.Some?) &&
      (c.ok ==> c.open && c.sent == log + OpenWrites(b) + TestCommands(b) + InitWrites(b)) &&
      (c.open && !c.ok ==> b.Galvant? && !TestPasses(b, clock, w1)) &&
      (!present ==> c.sent == log && c.wire == w) &&
      (b.Ni? ==> c.ok == (present && InitRead(b, clock, w1).result.Some?))
  {
  }

  /** Whatever happens after the port opened, the first six lines a Galvant
      adapter writes are its configuration for the instrument's address. */
  lemma ConnectionConfiguresFirst(b: Bridge, present: bool, clock: Clock, w: Wire, log: seq<string>)
    requires b.Galvant? && present
    ensures var c := Connection(b, present, clock, w, log);
      |log| + 6 <= |c.sent| && c.sent[..|log| + 6] == log + MapFrame(OpenCommands(b.galvant.gpibAddr))
  {
  }

  // ---------------------------------------------------------------------
  // The window
  // ---------------------------------------------------------------------

  class Hp8903Window {
    var gpibDev: Option<Bridge>
    var x: seq<Double>
    var y: seq<Double>

    constructor ()
      ensures gpibDev == None && x == [] && y == []
    {
      gpibDev := None;
      x := [];
      y := [];
    }

    /** `init_hp8903` (hp8903.py:1121-1134): succeeds when the 12-byte reply
        arrived in time. */
    method InitHp8903() returns (ok: bool)
      requires gpibDev.Some? && Port(gpibDev.value) != null
      modifies Adapter(gpibDev.value), Port(gpibDev.value)
      ensures var b := gpibDev.value;
        Port(b) == old(Port(b)) && BridgeOpen(b) == old(BridgeOpen(b)) &&
        if old(BridgeOpen(b)) then
          var f := InitRead(b, Port(b).clock, old(Port(b).WireState()));
          ok == f.result.Some? && Port(b).WireState() == f.wire &&
          Port(b).written == old(Port(b).written) + InitWrites(b)
        else !ok && Port(b).WireState() == old(Port(b).WireState()) && Port(b).written == old(Port(b).written)
    {
      var b := gpibDev.value;
      BridgeFlushInput(b);
      var n := BridgeWrite(b, InitCommand);
      var meas := BridgeRead(b, 12, 5000, DefaultEnd(b));
      ok := meas.Some?;
    }

    /** `setup_gpib` (hp8903.py:845-946): makes the adapter chosen in the
        combo box for address `addr`, on the device `port`, and connects. */
    method SetupGpib(model: Model, addr: int, port: SerialPort) returns (ok: bool)
      modifies this, port
      ensures gpibDev.Some? && Port(gpibDev.value) == port && fresh(Adapter(gpibDev.value))
      ensures gpibDev.value.Galvant? == model.GalvantModel?
      ensures model.GalvantModel? ==> gpibDev.value.galvant.gpibAddr == addr
      ensures x == old(x) && y == old(y)
      ensures var c := Connection(gpibDev.value, port.present, port.clock, old(port.WireState()), old(port.written));
        ok == c.ok && BridgeOpen(gpibDev.value) == c.open && port.WireState() == c.wire && port.written == c.sent
    {
      var b;
      if model.GalvantModel? {
        var g := new GalvantGpibUsb(addr);
        b := Galvant(g);
      } else {
        var n := new NiGpib232cvA(Some(addr));
        b := Ni(n);
      }
      gpibDev := Some(b);
      ok := Connect(b, port);
    }

    /** The part of `setup_gpib` after the adapter is made
        (hp8903.py:873-930): open, then test and initialize. */
    method Connect(b: Bridge, port: SerialPort) returns (ok: bool)
      requires gpibDev == Some(b)
      modifies Adapter(b), port
      ensures Port(b) == port && gpibDev == old(gpibDev)
      ensures var c := Connection(b, port.present, port.clock, old(port.WireState()), old(port.written));
        ok == c.ok && BridgeOpen(b) == c.open && port.WireState() == c.wire && port.written == c.sent
    {
      ok := BridgeOpenPort(b, port);
      if ok {
        ok := TestAndInitialize(b);
      }
    }

    /** hp8903.py:890-930 on an open adapter. The `else` branch of
        hp8903.py:919-930 cannot be taken: a test that passed leaves the
        port open. */
    method TestAndInitialize(b: Bridge) returns (ok: bool)
      requires gpibDev == Some(b) && Port(b) != null && BridgeOpen(b)
      modifies Adapter(b), Port(b)
      ensures Port(b) == old(Port(b)) && gpibDev == old(gpibDev)
      ensures var c := Tested(b, Port(b).clock, old(Port(b).WireState()), old(Port(b).written));
        ok == c.ok && BridgeOpen(b) == c.open && Port(b).WireState() == c.wire && Port(b).written == c.sent
    {
      ok := BridgeTest(b);
      if ok {
        if BridgeOpen(b) {
          ok := Initialize(b);
        } else {
          assert false;
        }
      }
    }

    /** hp8903.py:902-915: flush the adapter, initialize the analyzer, and
        close the adapter again when that failed. */
    method Initialize(b: Bridge) returns (ok: bool)
      requires gpibDev == Some(b) && Port(b) != null && BridgeOpen(b)
      modifies Adapter(b), Port(b)
      ensures Port(b) == old(Port(b)) && gpibDev == old(gpibDev)
      ensures var c := Initialized(b, Port(b).clock, old(Port(b).WireState()), old(Port(b).written));
        ok == c.ok && BridgeOpen(b) == c.open && Port(b).WireState() == c.wire && Port(b).written == c.sent
    {
      BridgeFlushInput(b);
      ok := InitHp8903();
      if !ok {
        BridgeClose(b);
      }
    }

    /** `close_gpib` (hp8903.py:948-972): closes the adapter, if one was
        made. */
    method CloseGpib()
      requires gpibDev.Some? ==> Port(gpibDev.value) != null
      modifies if gpibDev.Some? then {Port(gpibDev.value)} else {}
      ensures gpibDev.Some? ==>
        var b := gpibDev.value;
        !BridgeOpen(b) && Port(b).WireState() == old(Port(b).WireState()) &&
        Port(b).written == old(Port(b).written) + (if old(BridgeOpen(b)) then CloseWrites(b) else [])
    {
      if gpibDev.Some? {
        BridgeClose(gpibDev.value);
      }
    }

    /** `send_measurement` (hp8903.py:1136-1198): one exchange with the
        analyzer through the adapter in use, as `ex` makes it. */
    method SendMeasurement(text: FloatText, q: Request, ghost ex: (Request, Wire) -> Exchanged)
      returns (r: Returned<Sample>)
      requires gpibDev.Some? && Port(gpibDev.value) != null
      requires Realizes(Link(gpibDev.value, BridgeOpen(gpibDev.value), Port(gpibDev.value).clock, text), ex)
      modifies Adapter(gpibDev.value), Port(gpibDev.value)
      ensures var b := gpibDev.value;
        Port(b) == old(Port(b)) && BridgeOpen(b) == old(BridgeOpen(b)) &&
        var e := ex(q, old(Port(b).WireState()));
        r == e.result && Port(b).WireState() == e.wire && Port(b).written == old(Port(b).written) + e.sent
    {
      var b := gpibDev.value;
      ghost var l := Link(b, BridgeOpen(b), Port(b).clock, text);
      ghost var w := Port(b).WireState();
      assert ex(q, w) == Exchange(l, q, w);
      var payload := Payload(text.format, q.meas, q.unit, q.freq, q.amp, q.filters, q.ratio);
      var n := BridgeWrite(b, payload);
      var samp := BridgeRead(b, 0, 2500, DefaultEnd(b));
      r := Decode(text.parse, samp);
    }

    /** The body of either sweep loop of `run_test` (hp8903.py:1059-1074)
        for one point. */
    method MeasurePoint(text: FloatText, s: Setting, p: Double, ghost ex: (Request, Wire) -> Exchanged)
      returns (error: Option<Exception>)
      requires gpibDev.Some? && Port(gpibDev.value) != null
      requires Realizes(Link(gpibDev.value, BridgeOpen(gpibDev.value), Port(gpibDev.value).clock, text), ex)
      modifies this, Adapter(gpibDev.value), Port(gpibDev.value)
      ensures gpibDev == old(gpibDev)
      ensures var b := gpibDev.value;
        Port(b) == old(Port(b)) && BridgeOpen(b) == old(BridgeOpen(b)) &&
        var r := StepRun(text.parse, ex, s, p,
                         Run(old(x), old(y), old(Port(b).WireState()), old(Port(b).written), None));
        x == r.x && y == r.y && error == r.error &&
        Port(b).WireState() == r.wire && Port(b).written == r.sent
    {
      var q := StepRequest(s, p);
      var point := SendMeasurement(text, q, ex);
      if point.Raises? {
        error := Some(point.e);
      } else {
        x := x + [p];
        var v := ToFloat(text.parse, point.v);
        if v.Raises? {
          error := Some(v.e);
        } else {
          y := y + [v.v];
          error := None;
        }
      }
    }

    /** The sweep loops of `run_test` (hp8903.py:1059-1074). */
    method Sweep(text: FloatText, s: Setting, pts: seq<Double>, ghost ex: (Request, Wire) -> Exchanged)
      returns (error: Option<Exception>)
      requires gpibDev.Some? && Port(gpibDev.value) != null
      requires Realizes(Link(gpibDev.value, BridgeOpen(gpibDev.value), Port(gpibDev.value).clock, text), ex)
      modifies this, Adapter(gpibDev.value), Port(gpibDev.value)
      ensures gpibDev == old(gpibDev)
      ensures var b := gpibDev.value;
        Port(b) == old(Port(b)) && BridgeOpen(b) == old(BridgeOpen(b)) &&
        var e := StepsFrom(text.parse, ex, s, pts,
                           Run(old(x), old(y), old(Port(b).WireState()), old(Port(b).written), None));
        x == e.x && y == e.y && error == e.error &&
        Port(b).WireState() == e.wire && Port(b).written == e.sent
    {
      var b := gpibDev.value;
      ghost var l := Link(b, BridgeOpen(b), Port(b).clock, text);
      ghost var goal := StepsFrom(text.parse, ex, s, pts, Run(x, y, Port(b).WireState(), Port(b).written, None));
      error := None;
      var i := 0;
      while i < |pts| && error.None?
        invariant 0 <= i <= |pts| && gpibDev == old(gpibDev)
        invariant Port(b) == old(Port(b)) && BridgeOpen(b) == l.open && Realizes(l, ex)
        invariant error.None? ==>
          StepsFrom(text.parse, ex, s, pts[i..], Run(x, y, Port(b).WireState(), Port(b).written, None)) == goal
        invariant error.Some? ==>
          goal == Run(x, y, Port(b).WireState(), Port(b).written, error)
      {
        assert pts[i..][0] == pts[i] && pts[i..][1..] == pts[i + 1..];
        error := MeasurePoint(text, s, pts[i], ex);
        i := i + 1;
      }
    }

    /** The measurements `run_test` makes before its sweep
        (hp8903.py:1048-1057); the samples are discarded. */
    method Preliminaries(text: FloatText, s: Setting, ghost ex: (Request, Wire) -> Exchanged)
      returns (error: Option<Exception>)
      requires gpibDev.Some? && Port(gpibDev.value) != null
      requires Realizes(Link(gpibDev.value, BridgeOpen(gpibDev.value), Port(gpibDev.value).clock, text), ex)
      modifies Adapter(gpibDev.value), Port(gpibDev.value)
      ensures var b := gpibDev.value;
        Port(b) == old(Port(b)) && BridgeOpen(b) == old(BridgeOpen(b)) &&
        var r := PrelimFrom(ex, Preliminary(s), Run(x, y, old(Port(b).WireState()), old(Port(b).written), None));
        error == r.error && Port(b).WireState() == r.wire && Port(b).written == r.sent
    {
      var b := gpibDev.value;
      ghost var qs := Preliminary(s);
      ghost var r := Run(x, y, Port(b).WireState(), Port(b).written, None);
      error := None;
      if 0 <= s.meas <= 4 {
        var q := if s.meas == 2 || s.meas == 3 then Request(s.meas, s.units, s.center, s.amp, s.filters, 0)
                 else if s.meas == 4 then Request(s.meas, s.units, s.center, s.startAmp, s.filters, 2)
                 else Request(s.meas, s.units, s.center, s.amp, s.filters, 2);
        assert qs[0] == q;
        var pt := SendMeasurement(text, q, ex);
        ghost var r1 := Run(x, y, Port(b).WireState(), Port(b).written, None);
        if pt.Raises? {
          error := Some(pt.e);
        } else if s.meas == 2 || s.meas == 3 {
          var q1 := Request(s.meas, s.units, s.center, s.amp, s.filters, 1);
          assert qs[1..] == [q1];
          pt := SendMeasurement(text, q1, ex);
          ghost var r2 := Run(x, y, Port(b).WireState(), Port(b).written, None);
          assert PrelimFrom(ex, qs[1..][1..], r2) == r2;
          error := if pt.Raises? then Some(pt.e) else None;
        } else {
          assert PrelimFrom(ex, qs[1..], r1) == r1;
        }
      } else {
        assert qs == [];
      }
    }

    /** `run_test` (hp8903.py:974-1096) stripped of its widgets: clears the
        plot data, makes the preliminary measurements of the mode, then
        sweeps; a frequency sweep with no points raises `IndexError` first
        (hp8903.py:1027). `pts` stands for the computed sweep, `lsteps` for the modes
        0 to 3 and `vsteps` for mode 4; `ex` makes the exchanges of the
        adapter in use (`ExchangeOf` is one, `ExchangeOfRealizes`). */
    method RunTest(text: FloatText, s: Setting, pts: seq<Double>, ghost ex: (Request, Wire) -> Exchanged)
      returns (error: Option<Exception>)
      requires gpibDev.Some? && Port(gpibDev.value) != null
      requires Realizes(Link(gpibDev.value, BridgeOpen(gpibDev.value), Port(gpibDev.value).clock, text), ex)
      modifies this, Adapter(gpibDev.value), Port(gpibDev.value)
      ensures gpibDev == old(gpibDev)
      ensures var b := gpibDev.value;
        Port(b) == old(Port(b)) && BridgeOpen(b) == old(BridgeOpen(b)) &&
        var r := RunWith(text.parse, ex, s, pts, old(Port(b).WireState()), old(Port(b).written));
        x == r.x && y == r.y && error == r.error &&
        Port(b).WireState() == r.wire && Port(b).written == r.sent
    {
      var b := gpibDev.value;
      ghost var l := Link(b, BridgeOpen(b), Port(b).clock, text);
      RealizesProper(l, ex);
      PrelimFromSpec(text.parse, l.open, WritesOf(l), ex, Preliminary(s),
                     Run([], [], Port(b).WireState(), Port(b).written, None));
      x := [];
      y := [];
      if 0 <= s.meas < 4 && pts == [] {
        return Some(IndexError);
      }
      error := Preliminaries(text, s, ex);
      if error.None? {
        error := Sweep(text, s, SweepPoints(s, pts), ex);
      }
    }
  }
}
