/** The bounded polling read shared by both GPIB adapters
    (hp8903.py:177-231, repeated verbatim at hp8903.py:335-392).

    There is no blocking read: the loop asks the port how many bytes are
    waiting, consumes them, and after every poll that did not finish the
    read it compares the elapsed time with the timeout. There are two modes:
    read up to and including a terminator character, or read a fixed number
    of bytes. `ReadTerminated` and `ReadFixed` say, as functions of the port's
    receive state, what such a read returns, what it leaves in the adapter's
    `buffer` and what it leaves on the port; the methods `PollTerminated` and
    `PollFixed` are the loops themselves, proved to agree with them. */
module Polling {
  import opened Py
  import opened Serial

  /** How a read ends: the value it returns (`None` for `(False, None)`),
      the adapter's `buffer` afterwards, and the port's receive state. */
  datatype Finish = Finish(result: Option<string>, buffer: seq<char>, wire: Wire)

  function Flatten(chunks: seq<seq<char>>): seq<char> {
    if chunks == [] then [] else chunks[0] + Flatten(chunks[1..])
  }

  /** What `n` successive polls find waiting, poll by poll, on a receive
      state holding `input` with `arrivals` still to come: the first finds
      the bytes already there and the next chunk to arrive, each later one
      only the chunk that arrived since (nothing once the schedule is spent). */
  function Chunks(input: seq<char>, arrivals: seq<seq<char>>, n: nat): (cs: seq<seq<char>>)
    ensures |cs| == n
    decreases n
  {
    if n == 0 then [] else [input + Head(arrivals)] + Chunks([], Tail(arrivals), n - 1)
  }

  /** The schedule still to come after `n` polls. */
  function After(arrivals: seq<seq<char>>, n: nat): seq<seq<char>>
    decreases n
  {
    if n == 0 then arrivals else After(Tail(arrivals), n - 1)
  }

  /** Every byte the first `n` polls from `w` on found. */
  function Polled(w: Wire, n: nat): seq<char> {
    Flatten(Chunks(w.input, w.arrivals, n))
  }

  /** What the last of `n` polls from `w` on found. */
  function LastPoll(w: Wire, n: nat): seq<char>
    requires n >= 1
  {
    Chunks(w.input, w.arrivals, n)[n - 1]
  }

  /** Every byte the polls before the last of `n` found. */
  function BeforeLast(w: Wire, n: nat): seq<char>
    requires n >= 1
  {
    Flatten(Chunks(w.input, w.arrivals, n)[..n - 1])
  }

  /** A single poll finds the bytes already waiting and the next chunk. */
  lemma PollsOne(w: Wire)
    ensures var first := w.input + Head(w.arrivals);
      LastPoll(w, 1) == first && Polled(w, 1) == first && BeforeLast(w, 1) == [] &&
      After(w.arrivals, 1) == Tail(w.arrivals)
  {
    var cs := Chunks(w.input, w.arrivals, 1);
    assert cs == [w.input + Head(w.arrivals)];
    assert cs[..0] == [];
    assert Flatten(cs) == cs[0] + Flatten([]);
  }

  /** The first of several polls from `w` on, then the polls from `next`,
      the receive state it leaves, on; `acc` is what was read before. */
  lemma PollsStep(acc: seq<char>, w: Wire, next: Wire, n: nat)
    requires n >= 2 && next.input == [] && next.arrivals == Tail(w.arrivals)
    ensures var first := w.input + Head(w.arrivals);
      LastPoll(w, n) == LastPoll(next, n - 1) &&
      acc + BeforeLast(w, n) == (acc + first) + BeforeLast(next, n - 1) &&
      acc + Polled(w, n) == (acc + first) + Polled(next, n - 1) &&
      After(w.arrivals, n) == After(next.arrivals, n - 1)
  {
    var cs := Chunks(w.input, w.arrivals, n);
    var rest := Chunks([], Tail(w.arrivals), n - 1);
    assert cs == [w.input + Head(w.arrivals)] + rest;
    assert cs[1..] == rest;
    assert cs[..n - 1][0] == cs[0];
    assert cs[..n - 1][1..] == rest[..n - 2];
  }

  // ---------------------------------------------------------------------
  // Terminator mode (msg_len <= 0)
  // ---------------------------------------------------------------------

  /** The terminator loop from the poll at `w` on, with `acc` already in
      the buffer and `start` the clock reading taken when the read began. */
  function TerminatedFrom(clock: Clock, start: int, timeout: int, endChar: char,
                          acc: seq<char>, w: Wire): Finish
    decreases start + timeout - clock(w.ticks)
  {
    var waiting := w.input + Head(w.arrivals);
    var polled := Wire(waiting, Tail(w.arrivals), w.polls + 1, w.ticks);
    var k := IndexOf(waiting, endChar);
    if k < |waiting| then
      Finish(Some(acc + waiting[..k + 1]), [], polled.(input := waiting[k + 1..]))
    else if clock(w.ticks) - start >= timeout then
      Finish(None, acc + waiting, polled.(input := [], ticks := w.ticks + 1))
    else
      TerminatedFrom(clock, start, timeout, endChar, acc + waiting,
                     polled.(input := [], ticks := w.ticks + 1))
  }

  /** A terminator-mode read started on the receive state `w`: the first
      clock reading is the start time, then the polls begin. */
  function ReadTerminated(clock: Clock, timeout: int, endChar: char, w: Wire): Finish
  {
    TerminatedFrom(clock, clock(w.ticks), timeout, endChar, [], w.(ticks := w.ticks + 1))
  }

  /** One unfolding of the terminator loop when this poll brings the terminator. */
  lemma TerminatedFound(clock: Clock, start: int, timeout: int, endChar: char,
                        acc: seq<char>, w: Wire)
    requires IndexOf(w.input + Head(w.arrivals), endChar) < |w.input + Head(w.arrivals)|
    ensures var waiting := w.input + Head(w.arrivals);
      var k := IndexOf(waiting, endChar);
      TerminatedFrom(clock, start, timeout, endChar, acc, w)
        == Finish(Some(acc + waiting[..k + 1]), [],
                  Wire(waiting[k + 1..], Tail(w.arrivals), w.polls + 1, w.ticks))
  {
  }

  /** One unfolding of the terminator loop when this poll brings no terminator. */
  lemma TerminatedMissed(clock: Clock, start: int, timeout: int, endChar: char,
                         acc: seq<char>, w: Wire)
    requires IndexOf(w.input + Head(w.arrivals), endChar) == |w.input + Head(w.arrivals)|
    ensures var waiting := w.input + Head(w.arrivals);
      var next := Wire([], Tail(w.arrivals), w.polls + 1, w.ticks + 1);
      TerminatedFrom(clock, start, timeout, endChar, acc, w)
        == if clock(w.ticks) - start >= timeout then Finish(None, acc + waiting, next)
           else TerminatedFrom(clock, start, timeout, endChar, acc + waiting, next)
  {
  }

  /** What a terminator-mode read returns, given `t`, every byte it saw:
      it succeeds exactly when `t` holds an `endChar`, with every byte up to
      and including the first one, and what followed it stays unread on the
      port; on failure all of `t` is left in the buffer. */
  predicate TerminatedReplyIs(endChar: char, t: seq<char>, f: Finish) {
    var k := IndexOf(t, endChar);
    (f.result.Some? <==> k < |t|) &&
    (f.result.Some? ==> f.result.value == t[..k + 1] && f.wire.input == t[k + 1..] && f.buffer == []) &&
    (f.result.None? ==> f.buffer == t && f.wire.input == [])
  }

  /** What a read leaves behind: its value, the buffer, the unread input. */
  function Outcome(f: Finish): (Option<string>, seq<char>, seq<char>) {
    (f.result, f.buffer, f.wire.input)
  }

  /** The outcome `TerminatedReplyIs` describes, over `t`, every byte seen. */
  function TerminatedExpected(endChar: char, t: seq<char>): (Option<string>, seq<char>, seq<char>) {
    var k := IndexOf(t, endChar);
    if k < |t| then (Some(t[..k + 1]), [], t[k + 1..]) else (None, t, [])
  }

  lemma TerminatedExpectedMeans(endChar: char, t: seq<char>, f: Finish)
    requires Outcome(f) == TerminatedExpected(endChar, t)
    ensures TerminatedReplyIs(endChar, t, f)
  {
  }

  /** How the terminator loop from the poll at `w` on, with `acc` already
      in the buffer, ended in `f`, poll by poll: it made `n >= 1` polls and
      consumed `n` entries of the schedule; neither the buffer nor any poll
      before the last held a terminator; and the outcome is the one described
      by `TerminatedReplyIs` over the buffer followed by every byte the polls
      found. */
  predicate TerminatedEnds(endChar: char, acc: seq<char>, w: Wire, f: Finish) {
    f.wire.polls > w.polls &&
    var n := f.wire.polls - w.polls;
    f.wire.arrivals == After(w.arrivals, n) &&
    endChar !in acc + BeforeLast(w, n) &&
    Outcome(f) == TerminatedExpected(endChar, acc + Polled(w, n))
  }

  /** A terminator found in the latest bytes is the first one overall when
      the buffer holds none. */
  lemma FoundAfter(endChar: char, acc: seq<char>, waiting: seq<char>)
    requires endChar !in acc && IndexOf(waiting, endChar) < |waiting|
    ensures var k := IndexOf(waiting, endChar);
      var t := acc + waiting;
      IndexOf(t, endChar) == |acc| + k &&
      t[..|acc| + k + 1] == acc + waiting[..k + 1] && t[|acc| + k + 1..] == waiting[k + 1..]
  {
    var k := IndexOf(waiting, endChar);
    var t := acc + waiting;
    IndexOfAppend(acc, waiting, endChar);
    assert t[..|acc| + k + 1] == acc + waiting[..k + 1];
    assert t[|acc| + k + 1..] == waiting[k + 1..];
  }

  /** A loop that goes on after this poll ends as the loop from the next
      poll ends, with this poll's bytes added to the buffer. */
  lemma TerminatedEndsStep(endChar: char, acc: seq<char>, w: Wire, next: Wire, f: Finish)
    requires next == Wire([], Tail(w.arrivals), w.polls + 1, w.ticks + 1)
    requires TerminatedEnds(endChar, acc + (w.input + Head(w.arrivals)), next, f)
    ensures TerminatedEnds(endChar, acc, w, f)
  {
    PollsStep(acc, w, next, f.wire.polls - w.polls);
  }

  lemma {:induction false} TerminatedContent(clock: Clock, start: int, timeout: int,
                                             endChar: char, acc: seq<char>, w: Wire)
    requires endChar !in acc
    ensures TerminatedEnds(endChar, acc, w, TerminatedFrom(clock, start, timeout, endChar, acc, w))
    decreases start + timeout - clock(w.ticks)
  {
    var waiting := w.input + Head(w.arrivals);
    if IndexOf(waiting, endChar) < |waiting| {
      TerminatedFound(clock, start, timeout, endChar, acc, w);
      PollsOne(w);
      FoundAfter(endChar, acc, waiting);
      assert acc + [] == acc;
    } else {
      TerminatedMissed(clock, start, timeout, endChar, acc, w);
      IndexOfAppend(acc, waiting, endChar);
      if clock(w.ticks) - start >= timeout {
        PollsOne(w);
        assert acc + [] == acc;
      } else {
        var next := Wire([], Tail(w.arrivals), w.polls + 1, w.ticks + 1);
        assert endChar !in acc + waiting;
        TerminatedContent(clock, start, timeout, endChar, acc + waiting, next);
        TerminatedEndsStep(endChar, acc, w, next, TerminatedFrom(clock, start, timeout, endChar, acc, w));
      }
    }
  }

  /** How a read from the poll at `w` on ends, in clock readings: every poll
      but the last is followed by one reading; a success took its last
      reading inside the timeout; a failure ends on a reading, taken after
      its last poll, at least `timeout` past the start, and the reading
      before it was inside the timeout. */
  predicate TimingHolds(clock: Clock, start: int, timeout: int, w: Wire, f: Finish) {
    f.wire.ticks >= w.ticks && f.wire.polls > w.polls &&
    (f.result.Some? ==>
       f.wire.ticks - w.ticks == f.wire.polls - w.polls - 1 &&
       (f.wire.ticks > w.ticks ==> clock(f.wire.ticks - 1) - start < timeout)) &&
    (f.result.None? ==>
       f.wire.ticks - w.ticks == f.wire.polls - w.polls && f.wire.ticks > w.ticks &&
       clock(f.wire.ticks - 1) - start >= timeout &&
       (f.wire.ticks - 1 > w.ticks ==> clock(f.wire.ticks - 2) - start < timeout))
  }

  lemma {:induction false} TerminatedTiming(clock: Clock, start: int, timeout: int,
                                            endChar: char, acc: seq<char>, w: Wire)
    ensures TimingHolds(clock, start, timeout, w, TerminatedFrom(clock, start, timeout, endChar, acc, w))
    decreases start + timeout - clock(w.ticks)
  {
    var waiting := w.input + Head(w.arrivals);
    if IndexOf(waiting, endChar) < |waiting| {
      TerminatedFound(clock, start, timeout, endChar, acc, w);
    } else {
      TerminatedMissed(clock, start, timeout, endChar, acc, w);
      if clock(w.ticks) - start < timeout {
        var next := Wire([], Tail(w.arrivals), w.polls + 1, w.ticks + 1);
        TerminatedTiming(clock, start, timeout, endChar, acc + waiting, next);
      }
    }
  }

  /** What a terminator-mode read (hp8903.py:184-206) returns, poll by
      poll: it polls `n >= 1` times and stops at the first poll that brings
      a terminator, or, when none does, on the timeout. Over `t`, every byte
      the polls found, it succeeds exactly when `t` holds a terminator,
      returning the bytes through the first one and leaving the rest unread;
      on failure all of `t` stays in the buffer. */
  lemma ReadTerminatedReply(clock: Clock, timeout: int, endChar: char, w: Wire)
    ensures var f := ReadTerminated(clock, timeout, endChar, w);
      var n := f.wire.polls - w.polls;
      n >= 1 && f.wire.arrivals == After(w.arrivals, n) &&
      endChar !in BeforeLast(w, n) &&
      TerminatedReplyIs(endChar, Polled(w, n), f)
  {
    TerminatedContent(clock, clock(w.ticks), timeout, endChar, [], w.(ticks := w.ticks + 1));
    var f := ReadTerminated(clock, timeout, endChar, w);
    var n := f.wire.polls - w.polls;
    assert [] + Polled(w, n) == Polled(w, n);
    assert [] + BeforeLast(w, n) == BeforeLast(w, n);
    TerminatedExpectedMeans(endChar, Polled(w, n), f);
  }

  /** Readings taken before one inside the timeout were inside it too. */
  lemma EarlierReadings(clock: Clock, from: nat, last: nat)
    ensures forall i :: from <= i <= last ==> clock(i) <= clock(last)
  {
  }

  /** Timing, from a read's first clock reading `r = w.ticks` on. */
  lemma ReadTimingHolds(clock: Clock, timeout: int, w: Wire, f: Finish)
    requires TimingHolds(clock, clock(w.ticks), timeout, w.(ticks := w.ticks + 1), f)
    ensures f.wire.polls >= w.polls + 1
    ensures f.result.Some? ==>
      forall i :: w.ticks < i < f.wire.ticks ==> clock(i) - clock(w.ticks) < timeout
    ensures f.result.None? ==>
      w.ticks + 1 < f.wire.ticks &&
      clock(f.wire.ticks - 1) - clock(w.ticks) >= timeout &&
      forall i :: w.ticks < i < f.wire.ticks - 1 ==> clock(i) - clock(w.ticks) < timeout
  {
    if f.result.Some? && f.wire.ticks > w.ticks + 1 {
      EarlierReadings(clock, w.ticks + 1, f.wire.ticks - 1);
    }
    if f.result.None? && f.wire.ticks > w.ticks + 2 {
      EarlierReadings(clock, w.ticks + 1, f.wire.ticks - 2);
    }
  }

  /** When a terminator-mode read stops: a success took every clock reading
      inside the timeout; a failure ends on a reading, taken after a poll, at
      least `timeout` past the start, and no earlier reading had got there. */
  lemma ReadTerminatedTiming(clock: Clock, timeout: int, endChar: char, w: Wire)
    ensures var f := ReadTerminated(clock, timeout, endChar, w);
      f.wire.polls >= w.polls + 1 &&
      (f.result.Some? ==>
         forall i :: w.ticks < i < f.wire.ticks ==> clock(i) - clock(w.ticks) < timeout) &&
      (f.result.None? ==>
         w.ticks + 1 < f.wire.ticks &&
         clock(f.wire.ticks - 1) - clock(w.ticks) >= timeout &&
         forall i :: w.ticks < i < f.wire.ticks - 1 ==> clock(i) - clock(w.ticks) < timeout)
  {
    TerminatedTiming(clock, clock(w.ticks), timeout, endChar, [], w.(ticks := w.ticks + 1));
    ReadTimingHolds(clock, timeout, w, ReadTerminated(clock, timeout, endChar, w));
  }

  // ---------------------------------------------------------------------
  // Fixed-length mode (msg_len > 0)
  // ---------------------------------------------------------------------

  /** The fixed-length loop from the poll at `w` on, with `acc` read so far. */
  function FixedFrom(clock: Clock, start: int, msgLen: nat, timeout: int,
                     acc: seq<char>, w: Wire): Finish
    requires msgLen > 0
    decreases start + timeout - clock(w.ticks)
  {
    var waiting := w.input + Head(w.arrivals);
    var polled := Wire(waiting, Tail(w.arrivals), w.polls + 1, w.ticks);
    if |waiting| > 0 && |waiting| >= msgLen then
      // one poll holds the whole message: what was read before is dropped
      Finish(Some(waiting[..msgLen]), waiting[..msgLen], polled.(input := waiting[msgLen..]))
    else if |waiting| > 0 && |acc| + |waiting| >= msgLen then
      // complete message; bytes beyond msgLen are read and dropped
      Finish(Some((acc + waiting)[..msgLen]), [], polled.(input := []))
    else if clock(w.ticks) - start >= timeout then
      Finish(None, acc + waiting, polled.(input := [], ticks := w.ticks + 1))
    else
      FixedFrom(clock, start, msgLen, timeout, acc + waiting,
                polled.(input := [], ticks := w.ticks + 1))
  }

  /** A fixed-length read of `msgLen` bytes started on the receive state `w`. */
  function ReadFixed(clock: Clock, msgLen: nat, timeout: int, w: Wire): Finish
    requires msgLen > 0
  {
    FixedFrom(clock, clock(w.ticks), msgLen, timeout, [], w.(ticks := w.ticks + 1))
  }

  /** The read both adapters perform once the port is open: a `msgLen`
      of zero or less selects the terminator mode. */
  function ReadOutcome(clock: Clock, msgLen: int, timeout: int, endChar: char, w: Wire): Finish
  {
    if msgLen <= 0 then ReadTerminated(clock, timeout, endChar, w)
    else ReadFixed(clock, msgLen as nat, timeout, w)
  }

  /** One unfolding of the fixed-length loop: this poll finds the whole
      message waiting. */
  lemma FixedWhole(clock: Clock, start: int, msgLen: nat, timeout: int, acc: seq<char>, w: Wire)
    requires msgLen > 0
    requires |w.input + Head(w.arrivals)| >= msgLen
    ensures var waiting := w.input + Head(w.arrivals);
      FixedFrom(clock, start, msgLen, timeout, acc, w)
        == Finish(Some(waiting[..msgLen]), waiting[..msgLen],
                  Wire(waiting[msgLen..], Tail(w.arrivals), w.polls + 1, w.ticks))
  {
  }

  /** One unfolding of the fixed-length loop: this poll completes the message. */
  lemma FixedComplete(clock: Clock, start: int, msgLen: nat, timeout: int, acc: seq<char>, w: Wire)
    requires msgLen > 0
    requires var waiting := w.input + Head(w.arrivals);
      0 < |waiting| < msgLen <= |acc| + |waiting|
    ensures var waiting := w.input + Head(w.arrivals);
      FixedFrom(clock, start, msgLen, timeout, acc, w)
        == Finish(Some((acc + waiting)[..msgLen]), [],
                  Wire([], Tail(w.arrivals), w.polls + 1, w.ticks))
  {
  }

  /** One unfolding of the fixed-length loop: the message is still short. */
  lemma FixedShort(clock: Clock, start: int, msgLen: nat, timeout: int, acc: seq<char>, w: Wire)
    requires msgLen > 0
    requires |acc| + |w.input + Head(w.arrivals)| < msgLen
    ensures var waiting := w.input + Head(w.arrivals);
      var next := Wire([], Tail(w.arrivals), w.polls + 1, w.ticks + 1);
      FixedFrom(clock, start, msgLen, timeout, acc, w)
        == if clock(w.ticks) - start >= timeout then Finish(None, acc + waiting, next)
           else FixedFrom(clock, start, msgLen, timeout, acc + waiting, next)
  {
  }

  /** The outcome of a fixed-length read whose polls before the last read
      `before`, still short of `msgLen`, and whose last poll found `last`
      waiting. When `last` alone holds `msgLen` bytes, the reply is its
      first `msgLen`, `before` is dropped, the reply stays in the buffer and
      the rest of `last` stays unread. Otherwise, when `before` and `last`
      together reach `msgLen`, the reply is their first `msgLen` bytes, the
      excess is read and dropped and the buffer is emptied; when they do
      not, the read failed and keeps them in the buffer. */
  function FixedExpected(msgLen: nat, before: seq<char>, last: seq<char>): (Option<string>, seq<char>, seq<char>) {
    if msgLen <= |last| then (Some(last[..msgLen]), last[..msgLen], last[msgLen..])
    else if msgLen <= |before| + |last| then (Some((before + last)[..msgLen]), [], [])
    else (None, before + last, [])
  }

  /** How the fixed-length loop from the poll at `w` on, with `acc` read
      so far, ended in `f`, poll by poll: it made `n >= 1` polls and consumed
      `n` entries of the schedule; what it had read before the last poll was
      still short of `msgLen`; the outcome is `FixedExpected` of that and of
      what the last poll found. */
  predicate FixedEnds(msgLen: nat, acc: seq<char>, w: Wire, f: Finish) {
    f.wire.polls > w.polls &&
    var n := f.wire.polls - w.polls;
    f.wire.arrivals == After(w.arrivals, n) &&
    |acc + BeforeLast(w, n)| < msgLen &&
    Outcome(f) == FixedExpected(msgLen, acc + BeforeLast(w, n), LastPoll(w, n))
  }

  /** A loop that goes on after this poll ends as the loop from the next
      poll ends, with this poll's bytes added to what was read. */
  lemma FixedEndsStep(msgLen: nat, acc: seq<char>, w: Wire, next: Wire, f: Finish)
    requires next == Wire([], Tail(w.arrivals), w.polls + 1, w.ticks + 1)
    requires FixedEnds(msgLen, acc + (w.input + Head(w.arrivals)), next, f)
    ensures FixedEnds(msgLen, acc, w, f)
  {
    PollsStep(acc, w, next, f.wire.polls - w.polls);
  }

  lemma {:induction false} FixedContent(clock: Clock, start: int, msgLen: nat, timeout: int,
                                        acc: seq<char>, w: Wire)
    requires msgLen > 0 && |acc| < msgLen
    ensures FixedEnds(msgLen, acc, w, FixedFrom(clock, start, msgLen, timeout, acc, w))
    decreases start + timeout - clock(w.ticks)
  {
    var waiting := w.input + Head(w.arrivals);
    if |waiting| >= msgLen {
      FixedWhole(clock, start, msgLen, timeout, acc, w);
      PollsOne(w);
      assert acc + [] == acc;
    } else if msgLen <= |acc| + |waiting| {
      FixedComplete(clock, start, msgLen, timeout, acc, w);
      PollsOne(w);
      assert acc + [] == acc;
    } else {
      FixedShort(clock, start, msgLen, timeout, acc, w);
      if clock(w.ticks) - start >= timeout {
        PollsOne(w);
        assert acc + [] == acc;
      } else {
        var next := Wire([], Tail(w.arrivals), w.polls + 1, w.ticks + 1);
        FixedContent(clock, start, msgLen, timeout, acc + waiting, next);
        FixedEndsStep(msgLen, acc, w, next, FixedFrom(clock, start, msgLen, timeout, acc, w));
      }
    }
  }

  /** When the fixed-length loop stops; as for the terminator loop. */
  lemma {:induction false} FixedTiming(clock: Clock, start: int, msgLen: nat, timeout: int,
                                       acc: seq<char>, w: Wire)
    requires msgLen > 0 && |acc| < msgLen
    ensures TimingHolds(clock, start, timeout, w, FixedFrom(clock, start, msgLen, timeout, acc, w))
    decreases start + timeout - clock(w.ticks)
  {
    var waiting := w.input + Head(w.arrivals);
    if |waiting| >= msgLen {
      FixedWhole(clock, start, msgLen, timeout, acc, w);
    } else if msgLen <= |acc| + |waiting| {
      FixedComplete(clock, start, msgLen, timeout, acc, w);
    } else {
      FixedShort(clock, start, msgLen, timeout, acc, w);
      if clock(w.ticks) - start < timeout {
        var next := Wire([], Tail(w.arrivals), w.polls + 1, w.ticks + 1);
        FixedTiming(clock, start, msgLen, timeout, acc + waiting, next);
      }
    }
  }

  /** What a fixed-length read (hp8903.py:208-231) returns, poll by poll:
      `FixedEnds` from the first poll on, with nothing read yet. */
  lemma ReadFixedReply(clock: Clock, msgLen: nat, timeout: int, w: Wire)
    requires msgLen > 0
    ensures var f := ReadFixed(clock, msgLen, timeout, w);
      var n := f.wire.polls - w.polls;
      n >= 1 && f.wire.arrivals == After(w.arrivals, n) &&
      var before, last := BeforeLast(w, n), LastPoll(w, n);
      |before| < msgLen &&
      (f.result.Some? <==> msgLen <= |before| + |last|) &&
      (f.result.Some? && msgLen <= |last| ==>
         f.result.value == last[..msgLen] && f.buffer == f.result.value && f.wire.input == last[msgLen..]) &&
      (f.result.Some? && |last| < msgLen ==>
         f.result.value == (before + last)[..msgLen] && f.buffer == [] && f.wire.input == []) &&
      (f.result.None? ==> f.buffer == before + last && f.wire.input == [])
  {
    FixedContent(clock, clock(w.ticks), msgLen, timeout, [], w.(ticks := w.ticks + 1));
    var f := ReadFixed(clock, msgLen, timeout, w);
    var n := f.wire.polls - w.polls;
    assert [] + BeforeLast(w, n) == BeforeLast(w, n);
  }

  /** When a fixed-length read stops; as for the terminator mode. */
  lemma ReadFixedTiming(clock: Clock, msgLen: nat, timeout: int, w: Wire)
    requires msgLen > 0
    ensures var f := ReadFixed(clock, msgLen, timeout, w);
      f.wire.polls >= w.polls + 1 &&
      (f.result.Some? ==>
         forall i :: w.ticks < i < f.wire.ticks ==> clock(i) - clock(w.ticks) < timeout) &&
      (f.result.None? ==>
         w.ticks + 1 < f.wire.ticks &&
         clock(f.wire.ticks - 1) - clock(w.ticks) >= timeout &&
         forall i :: w.ticks < i < f.wire.ticks - 1 ==> clock(i) - clock(w.ticks) < timeout)
  {
    FixedTiming(clock, clock(w.ticks), msgLen, timeout, [], w.(ticks := w.ticks + 1));
    ReadTimingHolds(clock, timeout, w, ReadFixed(clock, msgLen, timeout, w));
  }

  /** A clock that reads one millisecond later each time it is read. */
  const MillisecondTicks: Clock := (i: nat) => i as int

  /** The overwrite quirk of hp8903.py:213-215 on a concrete schedule: "ab"
      arrives, then "cdefg"; a 3-byte read returns "cde", not "abc", and
      "fg" stays unread. */
  lemma FixedReadDropsEarlierBytes()
    ensures var f := ReadFixed(MillisecondTicks, 3, 500, Wire([], ["ab", "cdefg"], 0, 0));
      f.result == Some("cde") && f.wire.input == "fg"
  {
    var clock := MillisecondTicks;
    var w := Wire([], ["ab", "cdefg"], 0, 1);
    assert Head(w.arrivals) == "ab" && Tail(w.arrivals) == ["cdefg"];
    FixedShort(clock, 0, 3, 500, [], w);
    var w2 := Wire([], ["cdefg"], 1, 2);
    assert [] + ([] + "ab") == "ab";
    assert FixedFrom(clock, 0, 3, 500, [], w) == FixedFrom(clock, 0, 3, 500, "ab", w2);
    assert Head(w2.arrivals) == "cdefg" && Tail(w2.arrivals) == [];
    FixedWhole(clock, 0, 3, 500, "ab", w2);
    assert [] + "cdefg" == "cdefg";
    assert "cdefg"[..3] == "cde" && "cdefg"[3..] == "fg";
  }

  // ---------------------------------------------------------------------
  // The loops
  // ---------------------------------------------------------------------

  /** The inner `for i in range(w)` loop: reads the `w` waiting bytes one
      at a time and stops just after the first `endChar`. */
  method TakeThrough(port: SerialPort, w: nat, endChar: char) returns (taken: seq<char>, found: bool)
    requires port.isOpen && w == |port.input|
    modifies port
    ensures var waiting := old(port.input);
      var k := IndexOf(waiting, endChar);
      found == (k < |waiting|) &&
      taken == (if found then waiting[..k + 1] else waiting) &&
      port.input == (if found then waiting[k + 1..] else [])
    ensures port.arrivals == old(port.arrivals) && port.polls == old(port.polls) && port.ticks == old(port.ticks)
    ensures port.isOpen && port.written == old(port.written)
    ensures port.baud == old(port.baud) && port.byteSize == old(port.byteSize)
  {
    ghost var waiting := port.input;
    taken := [];
    var i := 0;
    while i < w
      invariant 0 <= i <= w && port.isOpen && port.written == old(port.written)
      invariant port.baud == old(port.baud) && port.byteSize == old(port.byteSize)
      invariant taken == waiting[..i] && port.input == waiting[i..]
      invariant port.arrivals == old(port.arrivals) && port.polls == old(port.polls) && port.ticks == old(port.ticks)
      invariant forall j :: 0 <= j < i ==> waiting[j] != endChar
    {
      var c := port.Read(1);
      assert c == [waiting[i]];
      taken := taken + c;
      assert taken == waiting[..i + 1];
      if c == [endChar] {
        assert IndexOf(waiting, endChar) == i;
        return taken, true;
      }
      i := i + 1;
    }
    assert taken == waiting;
    found := false;
  }

  /** One pass of the terminator loop's body: poll, then consume the waiting
      bytes through the first `endChar`, if there is one. */
  method TerminatedPoll(port: SerialPort, endChar: char, buffer: seq<char>)
      returns (found: bool, buffer': seq<char>)
    requires port.isOpen
    modifies port
    ensures var before := old(port.WireState());
      var waiting := before.input + Head(before.arrivals);
      var k := IndexOf(waiting, endChar);
      found == (k < |waiting|) &&
      buffer' == buffer + (if found then waiting[..k + 1] else waiting) &&
      port.WireState() == Wire(if found then waiting[k + 1..] else [], Tail(before.arrivals),
                               before.polls + 1, before.ticks)
    ensures port.isOpen && port.written == old(port.written)
    ensures port.baud == old(port.baud) && port.byteSize == old(port.byteSize)
  {
    var w := port.InWaiting();
    if w > 0 {
      var taken;
      taken, found := TakeThrough(port, w, endChar);
      buffer' := buffer + taken;
    } else {
      found := false;
      buffer' := buffer;
      assert buffer + port.input == buffer;
    }
  }

  /** One iteration of the terminator loop: a poll, and when it brings no
      terminator, the clock reading the timeout is judged by. `done` says
      whether the loop ends here. */
  method TerminatedRound(port: SerialPort, start: int, timeout: int, endChar: char, buffer: seq<char>)
      returns (done: bool, result: Option<string>, buffer': seq<char>)
    requires port.isOpen
    modifies port
    ensures var goal := TerminatedFrom(port.clock, start, timeout, endChar, buffer, old(port.WireState()));
      if done then goal == Finish(result, buffer', port.WireState())
      else goal == TerminatedFrom(port.clock, start, timeout, endChar, buffer', port.WireState()) &&
           port.ticks == old(port.ticks) + 1 && port.clock(old(port.ticks)) - start < timeout
    ensures port.isOpen && port.written == old(port.written)
    ensures port.baud == old(port.baud) && port.byteSize == old(port.byteSize)
  {
    ghost var before := port.WireState();
    var found;
    found, buffer' := TerminatedPoll(port, endChar, buffer);
    if found {
      TerminatedFound(port.clock, start, timeout, endChar, buffer, before);
      var reply := buffer';
      buffer' := [];
      return true, Some(reply), buffer';
    }
    TerminatedMissed(port.clock, start, timeout, endChar, buffer, before);
    var now := port.Now();
    assert port.WireState() == Wire([], Tail(before.arrivals), before.polls + 1, before.ticks + 1);
    if now - start >= timeout {
      return true, None, buffer';
    }
    return false, None, buffer';
  }

  /** The terminator-mode loop on an open port, returning the reply and
      the adapter's final `buffer`. The GUI keep-alive hook is a no-op. */
  method PollTerminated(port: SerialPort, timeout: int, endChar: char)
      returns (result: Option<string>, buffer: seq<char>)
    requires port.isOpen
    modifies port
    ensures var f := ReadTerminated(port.clock, timeout, endChar, old(port.WireState()));
      result == f.result && buffer == f.buffer && port.WireState() == f.wire
    ensures port.isOpen && port.written == old(port.written)
    ensures port.baud == old(port.baud) && port.byteSize == old(port.byteSize)
  {
    ghost var goal := ReadTerminated(port.clock, timeout, endChar, port.WireState());
    buffer := [];
    var start := port.Now();
    var done := false;
    result := None;
    while !done
      invariant port.isOpen && port.written == old(port.written)
      invariant port.baud == old(port.baud) && port.byteSize == old(port.byteSize)
      invariant done ==> goal == Finish(result, buffer, port.WireState())
      invariant !done ==> TerminatedFrom(port.clock, start, timeout, endChar, buffer, port.WireState()) == goal
      decreases !done, start + timeout - port.clock(port.ticks)
    {
      done, result, buffer := TerminatedRound(port, start, timeout, endChar, buffer);
    }
  }

  /** The fixed-length loop on an open port, for `msgLen > 0`. */
  method PollFixed(port: SerialPort, msgLen: nat, timeout: int)
      returns (result: Option<string>, buffer: seq<char>)
    requires port.isOpen && msgLen > 0
    modifies port
    ensures var f := ReadFixed(port.clock, msgLen, timeout, old(port.WireState()));
      result == f.result && buffer == f.buffer && port.WireState() == f.wire
    ensures port.isOpen && port.written == old(port.written)
    ensures port.baud == old(port.baud) && port.byteSize == old(port.byteSize)
  {
    ghost var goal := ReadFixed(port.clock, msgLen, timeout, port.WireState());
    buffer := [];
    var start := port.Now();
    var r := 0;
    while true
      invariant port.isOpen && port.written == old(port.written)
      invariant port.baud == old(port.baud) && port.byteSize == old(port.byteSize)
      invariant r == |buffer| < msgLen
      invariant FixedFrom(port.clock, start, msgLen, timeout, buffer, port.WireState()) == goal
      decreases start + timeout - port.clock(port.ticks)
    {
      ghost var before := port.WireState();
      var w := port.InWaiting();
      ghost var waiting := port.input;
      assert waiting == before.input + Head(before.arrivals);
      ghost var next := Wire([], Tail(before.arrivals), before.polls + 1, before.ticks + 1);
      if w > 0 {
        if w >= msgLen {
          FixedWhole(port.clock, start, msgLen, timeout, buffer, before);
          buffer := port.Read(msgLen);
          return Some(buffer), buffer;
        } else {
          var data := port.Read(w);
          assert data == waiting;
          if r + w >= msgLen {
            FixedComplete(port.clock, start, msgLen, timeout, buffer, before);
          } else {
            FixedShort(port.clock, start, msgLen, timeout, buffer, before);
          }
          buffer := buffer + data;
          r := r + w;
          if r >= msgLen {
            var reply := buffer[..msgLen];
            buffer := [];
            return Some(reply), buffer;
          }
        }
      } else {
        FixedShort(port.clock, start, msgLen, timeout, buffer, before);
        assert buffer + waiting == buffer;
        assert port.input == [];
      }
      assert port.WireState() == next.(ticks := before.ticks);
      var now := port.Now();
      assert port.WireState() == next;
      if now - start >= timeout {
        return None, buffer;
      }
    }
  }

  /** The body of both adapters' `read` after the open check and the reset
      of `buffer` (hp8903.py:181-231, hp8903.py:344-392). */
  method PollRead(port: SerialPort, msgLen: int, timeout: int, endChar: char)
      returns (result: Option<string>, buffer: seq<char>)
    requires port.isOpen
    modifies port
    ensures var f := ReadOutcome(port.clock, msgLen, timeout, endChar, old(port.WireState()));
      result == f.result && buffer == f.buffer && port.WireState() == f.wire
    ensures port.isOpen && port.written == old(port.written)
    ensures port.baud == old(port.baud) && port.byteSize == old(port.byteSize)
  {
    if msgLen <= 0 {
      result, buffer := PollTerminated(port, timeout, endChar);
    } else {
      result, buffer := PollFixed(port, msgLen as nat, timeout);
    }
  }
}
