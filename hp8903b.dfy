/** The older single-adapter program `hp8903b.py`: its request builder
    (hp8903b.py:311-329), the selection of sweep points (hp8903b.py:275) and
    the sweep loop of its `run_test` (hp8903b.py:277-283).

    That program talks to the analyzer on a raw serial port and waits for a
    reply with an unbounded `inWaiting() < 12` loop; what the port returns
    once the reply is there is given here as `reply(k)`, the reply to the
    k-th request. */
module Hp8903b {
  import opened Py
  import opened Codec

  /** `fs1 + fs2` (hp8903b.py:311-323): low pass 30 kHz over 80 kHz over
      none, then left plug-in over right over none. */
  function FilterFieldB(filters: Filters): (r: string)
    ensures r == FilterField(filters)
  {
    var fs1 := if filters.lp30k then "L1" else if filters.lp80k then "L2" else "L0";
    var fs2 := if filters.leftPlugIn then "H1" else if filters.rightPlugIn then "H2" else "H0";
    fs1 + fs2
  }

  /** `payload` (hp8903b.py:325-329); `fmt` is `%.4E`. */
  function PayloadB(fmt: Double -> string, freq: Double, amp: Double, filters: Filters): string {
    var sourceFreq := "FR" + fmt(freq) + "HZ";
    var sourceAmpl := "AP" + fmt(amp) + "VL";
    var filterS := FilterFieldB(filters);
    sourceFreq + sourceAmpl + "M3LN" + filterS + "LNT3"
  }

  /** The older request always selects distortion ("M3"), has no ratio key,
      and carries a second linear-unit key "LN" between the mode and the
      filters: it is the newer request for distortion, linear units and no
      ratio with "LN" inserted after the mode key. */
  lemma PayloadBInsertsUnit(fmt: Double -> string, freq: Double, amp: Double, filters: Filters)
    ensures var p := Payload(fmt, 0, 0, freq, amp, filters, 0);
      var k := |fmt(freq)| + |fmt(amp)| + 10;
      k <= |p| && p[k - 2..k] == "M3" &&
      PayloadB(fmt, freq, amp, filters) == p[..k] + "LN" + p[k..]
  {
    var f, a, fl := fmt(freq), fmt(amp), FilterField(filters);
    var head := "FR" + f + "HZAP" + a + "VL" + "M3";
    var tail := fl + "LN" + "" + "T3";
    RenderAtMode(Command(f, a, "M3", fl, "LN", ""));
    RenderAtMode(Command(f, a, "M3LN", fl, "LN", ""));
    PayloadBFields(fmt, freq, amp, filters);
    var p := Payload(fmt, 0, 0, freq, amp, filters, 0);
    assert p == head + tail;
    assert |head| == |f| + |a| + 10 && head[|head| - 2..] == "M3";
    assert p[..|head|] == head && p[|head|..] == tail;
    assert PayloadB(fmt, freq, amp, filters) == head + "LN" + tail;
  }

  /** A rendered command, split after its mode field. */
  lemma RenderAtMode(c: Command)
    ensures Render(c) == "FR" + c.freq + "HZAP" + c.amp + "VL" + c.mode + (c.filter + c.unit + c.ratio + "T3")
  {
  }

  /** The older request as the newer concatenation of its pieces, with
      "M3LN" in place of the mode key; a step of `PayloadBInsertsUnit`. */
  lemma PayloadBFields(fmt: Double -> string, freq: Double, amp: Double, filters: Filters)
    ensures PayloadB(fmt, freq, amp, filters) == Render(Command(fmt(freq), fmt(amp), "M3LN", FilterField(filters), "LN", ""))
  {
    PayloadLayout(fmt(freq), fmt(amp), "M3LN", FilterField(filters), "LN", "");
  }

  /** `lsteps[(lsteps > strtf) & (lsteps < stopf)]` (hp8903b.py:275): the
      points strictly between the two bounds, in their order. */
  function KeepBetween(steps: seq<Double>, lo: Double, hi: Double): seq<Double> {
    if steps == [] then [] else KeptPoint(steps[0], lo, hi) + KeepBetween(steps[1..], lo, hi)
  }

  /** One point's share of the selection: itself when strictly between. */
  function KeptPoint(v: Double, lo: Double, hi: Double): seq<Double> {
    if Greater(v, lo) && Greater(hi, v) then [v] else []
  }

  /** A point is kept exactly when it is a point strictly between the
      bounds; neither bound is ever kept. */
  lemma {:induction false} KeepBetweenMembers(steps: seq<Double>, lo: Double, hi: Double)
    ensures forall v :: v in KeepBetween(steps, lo, hi) <==> v in steps && Greater(v, lo) && Greater(hi, v)
    ensures lo !in KeepBetween(steps, lo, hi) && hi !in KeepBetween(steps, lo, hi)
  {
    if steps != [] {
      KeepBetweenMembers(steps[1..], lo, hi);
      assert steps == [steps[0]] + steps[1..];
    }
    GreaterIsStrictOrder(lo, hi, lo);
    GreaterIsStrictOrder(hi, lo, hi);
  }

  /** The selection keeps order: what it keeps of a stretch of points
      comes, in place, before what it keeps of the points after it. */
  lemma {:induction false} KeepBetweenAppend(a: seq<Double>, b: seq<Double>, lo: Double, hi: Double)
    ensures KeepBetween(a + b, lo, hi) == KeepBetween(a, lo, hi) + KeepBetween(b, lo, hi)
  {
    if a == [] {
      assert a + b == b;
    } else {
      assert (a + b)[0] == a[0] && (a + b)[1..] == a[1..] + b;
      KeepBetweenAppend(a[1..], b, lo, hi);
    }
  }

  /** The requests the older program writes for the points `xs`, in order. */
  function Requests(fmt: Double -> string, xs: seq<Double>, amp: Double, filters: Filters): seq<string> {
    if xs == [] then [] else [PayloadB(fmt, xs[0], amp, filters)] + Requests(fmt, xs[1..], amp, filters)
  }

  /** Requesting one more point appends its request to the log. */
  lemma {:induction false} RequestsStep(fmt: Double -> string, xs: seq<Double>, v: Double, amp: Double, filters: Filters)
    ensures Requests(fmt, xs + [v], amp, filters) == Requests(fmt, xs, amp, filters) + [PayloadB(fmt, v, amp, filters)]
  {
    if xs != [] {
      assert (xs + [v])[1..] == xs[1..] + [v];
      RequestsStep(fmt, xs[1..], v, amp, filters);
    } else {
      assert [v][1..] == [];
    }
  }

  /** The k-th request written is the request for the k-th point. */
  lemma {:induction false} RequestsAt(fmt: Double -> string, xs: seq<Double>, amp: Double, filters: Filters)
    ensures |Requests(fmt, xs, amp, filters)| == |xs|
    ensures forall k :: 0 <= k < |xs| ==> Requests(fmt, xs, amp, filters)[k] == PayloadB(fmt, xs[k], amp, filters)
  {
    if xs != [] {
      RequestsAt(fmt, xs[1..], amp, filters);
    }
  }

  /** `ys` are the values `parse` reads from the replies numbered
      `base`, `base + 1`, ... */
  predicate ReadsBack(parse: string -> Option<Double>, reply: nat -> string, base: nat, ys: seq<Double>) {
    forall j :: 0 <= j < |ys| ==> parse(reply(base + j)) == Some(ys[j])
  }

  lemma ReadsBackStep(parse: string -> Option<Double>, reply: nat -> string, base: nat, ys: seq<Double>, v: Double)
    requires ReadsBack(parse, reply, base, ys) && parse(reply(base + |ys|)) == Some(v)
    ensures ReadsBack(parse, reply, base, ys + [v])
  {
  }

  /** The window of the older program: what it wrote to the serial port,
      how many replies it has read, and the replies the analyzer gives. */
  class Hp8903bWindow {
    const reply: nat -> string
    var written: seq<string>
    var answered: nat

    constructor (reply: nat -> string)
      ensures this.reply == reply && written == [] && answered == 0
    {
      this.reply := reply;
      written := [];
      answered := 0;
    }

    /** `send_measurement` (hp8903b.py:310-339): writes the request and
        returns the reply once it has arrived. */
    method SendMeasurementB(fmt: Double -> string, freq: Double, amp: Double, filters: Filters)
      returns (meas: string)
      modifies this
      ensures written == old(written) + [PayloadB(fmt, freq, amp, filters)]
      ensures meas == reply(old(answered)) && answered == old(answered) + 1
    {
      var payload := PayloadB(fmt, freq, amp, filters);
      written := written + [payload];
      meas := reply(answered);
      answered := answered + 1;
    }

    /** The loop of `run_test` (hp8903b.py:277-283) over the points
        `pts`: one request per point, in order; the point goes to `x` and
        `float()` of the reply to `y`, which raises `ValueError` on a reply
        that is not a number and so ends the loop. */
    method SweepB(text: FloatText, amp: Double, filters: Filters, pts: seq<Double>)
      returns (x: seq<Double>, y: seq<Double>, error: Option<Exception>)
      modifies this
      ensures |x| <= |pts| && x == pts[..|x|]
      ensures written == old(written) + Requests(text.format, x, amp, filters)
      ensures answered == old(answered) + |x|
      ensures ReadsBack(text.parse, reply, old(answered), y)
      ensures error.None? ==> x == pts && |y| == |x|
      ensures error.Some? ==> error == Some(ValueError) && |y| + 1 == |x| &&
                              text.parse(reply(old(answered) + |y|)).None?
    {
      var base := answered;
      ghost var log := written;
      x, y, error := [], [], None;
      for i := 0 to |pts|
        invariant |x| == i && x == pts[..i] && |y| == i
        invariant written == log + Requests(text.format, x, amp, filters)
        invariant answered == base + i
        invariant ReadsBack(text.parse, reply, base, y)
      {
        var meas := SendMeasurementB(text.format, pts[i], amp, filters);
        RequestsStep(text.format, x, pts[i], amp, filters);
        x := x + [pts[i]];
        var v := text.parse(meas);
        if v.None? {
          error := Some(ValueError);
          break;
        }
        ReadsBackStep(text.parse, reply, base, y, v.value);
        y := y + [v.value];
      }
    }

    /** `run_test` (hp8903b.py:275-283): the computed points `lsteps` kept
        strictly between the start and stop frequencies, then swept. */
    method RunTestB(text: FloatText, amp: Double, filters: Filters, lsteps: seq<Double>,
                    strtf: Double, stopf: Double)
      returns (x: seq<Double>, y: seq<Double>, error: Option<Exception>)
      modifies this
      ensures var kept := KeepBetween(lsteps, strtf, stopf);
        |x| <= |kept| && x == kept[..|x|] &&
        (error.None? ==> x == kept && |y| == |x|)
      ensures written == old(written) + Requests(text.format, x, amp, filters)
      ensures answered == old(answered) + |x|
      ensures ReadsBack(text.parse, reply, old(answered), y)
      ensures error.Some? ==> error == Some(ValueError) && |y| + 1 == |x| &&
                              text.parse(reply(old(answered) + |y|)).None?
    {
      var kept := KeepBetween(lsteps, strtf, stopf);
      x, y, error := SweepB(text, amp, filters, kept);
    }
  }
}
