/**
 Voice activity: bytes become samples, samples become frames, and each frame's
 verdict moves the end-of-turn heuristic. The neural detector is a function of
 the frames it has heard.
 */
module Vad {
  import opened Prelude
  import opened Bytes
  import opened Collections

  const FRAME_SAMPLES := 256
  const FRAME_MS := 16
  const MIN_SPEECH_MS := 200
  const MAX_PREROLL_BYTES := 9600

  type Frame = seq<Sample>

  /** The verdict on the last of the frames heard so far. */
  type Ear = seq<Frame> -> bool

  datatype VadEvent = SpeechStarted | TurnEnded

  datatype Turn = Turn(speechRun: nat, silenceRun: nat, inSpeech: bool)

  const FRESH_TURN := Turn(0, 0, false)

  datatype Detector = Detector(
    heard: seq<Frame>, pending: seq<Sample>, odd: Option<Byte>, turn: Turn,
    preroll: seq<Byte>, capturing: bool, silenceMs: nat)
  {
    ghost predicate Valid() {
      |pending| < FRAME_SAMPLES && |preroll| <= MAX_PREROLL_BYTES
    }
  }

  // ----- the byte framer -----

  function Stitch(odd: Option<Byte>, bytes: seq<Byte>): seq<Byte> {
    if odd.Some? then [odd.value] + bytes else bytes
  }

  function OddByte(bytes: seq<Byte>): Option<Byte> {
    if |bytes| % 2 == 1 then Some(bytes[|bytes| - 1]) else None
  }

  // ----- the end-of-turn heuristic -----

  function Observe(t: Turn, silenceMs: nat, voice: bool): (Turn, Option<VadEvent>) {
    if voice then
      var t' := Turn(Wrap32(t.speechRun + FRAME_MS), 0, t.inSpeech);
      if !t.inSpeech && t'.speechRun >= MIN_SPEECH_MS then (t'.(inSpeech := true), Some(SpeechStarted)) else (t', None)
    else if t.inSpeech then
      var t' := t.(silenceRun := Wrap32(t.silenceRun + FRAME_MS));
      if t'.silenceRun >= silenceMs then (FRESH_TURN, Some(TurnEnded)) else (t', None)
    else (t.(speechRun := 0), None)
  }

  function Emitted(e: Option<VadEvent>): seq<VadEvent> {
    if e.Some? then [e.value] else []
  }

  datatype Drained = Drained(heard: seq<Frame>, pending: seq<Sample>, turn: Turn, events: seq<VadEvent>)

  function Drain(ear: Ear, heard: seq<Frame>, pending: seq<Sample>, t: Turn, silenceMs: nat): (r: Drained)
    ensures |r.pending| < FRAME_SAMPLES
    decreases |pending|
  {
    if |pending| < FRAME_SAMPLES then Drained(heard, pending, t, [])
    else
      var heard' := heard + [pending[..FRAME_SAMPLES]];
      var (t', e) := Observe(t, silenceMs, ear(heard'));
      var rest := Drain(ear, heard', pending[FRAME_SAMPLES..], t', silenceMs);
      rest.(events := Emitted(e) + rest.events)
  }

  // ----- the detector -----

  function NewDetector(silenceMs: nat): Detector {
    Detector([], [], None, FRESH_TURN, [], false, if silenceMs < 100 then 100 else silenceMs)
  }

  function Push(ear: Ear, d: Detector, bytes: seq<Byte>): (Detector, seq<VadEvent>) {
    var all := Stitch(d.odd, bytes);
    var r := Drain(ear, d.heard, d.pending + Samples(all), d.turn, d.silenceMs);
    (d.(heard := r.heard, pending := r.pending, odd := OddByte(all), turn := r.turn), r.events)
  }

  function ResetTurn(d: Detector): Detector {
    d.(turn := FRESH_TURN, capturing := false, preroll := [])
  }

  datatype Captured = Captured(detector: Detector, capture: seq<Byte>, events: seq<VadEvent>)

  function PushCapturing(ear: Ear, d: Detector, bytes: seq<Byte>, capture: seq<Byte>): Captured {
    var d1 := if d.capturing then d else d.(preroll := LastOf(d.preroll + bytes, MAX_PREROLL_BYTES));
    var (d2, events) := Push(ear, d1, bytes);
    if d.capturing then Captured(d2, capture + bytes, events)
    else if SpeechStarted in events then Captured(d2.(preroll := [], capturing := true), capture + d2.preroll, events)
    else Captured(d2, capture, events)
  }

  // ----- splitting the stream anywhere changes nothing -----

  lemma SamplesAppend(a: seq<Byte>, b: seq<Byte>)
    ensures Samples(a + b) == Samples(a) + Samples(Stitch(OddByte(a), b))
    ensures OddByte(a + b) == OddByte(Stitch(OddByte(a), b))
  {
    var rest := Stitch(OddByte(a), b);
    var k := |a| / 2;
    assert a + b == a[..2 * k] + rest;
    forall i | 0 <= i < |Samples(a + b)|
      ensures Samples(a + b)[i] == (Samples(a) + Samples(rest))[i]
    {
      if i >= k {
        assert (a + b)[2 * i] == rest[2 * (i - k)] && (a + b)[2 * i + 1] == rest[2 * (i - k) + 1];
      }
    }
  }

  lemma DrainFrame(ear: Ear, heard: seq<Frame>, pending: seq<Sample>, t: Turn, silenceMs: nat)
    requires |pending| >= FRAME_SAMPLES
    ensures var heard' := heard + [pending[..FRAME_SAMPLES]];
            var (t', e) := Observe(t, silenceMs, ear(heard'));
            var rest := Drain(ear, heard', pending[FRAME_SAMPLES..], t', silenceMs);
            Drain(ear, heard, pending, t, silenceMs) == rest.(events := Emitted(e) + rest.events)
  {
    hide Observe;
  }

  lemma DrainShort(ear: Ear, heard: seq<Frame>, pending: seq<Sample>, t: Turn, silenceMs: nat)
    requires |pending| < FRAME_SAMPLES
    ensures Drain(ear, heard, pending, t, silenceMs) == Drained(heard, pending, t, [])
  {
  }

  lemma {:induction false} DrainAppend(ear: Ear, heard: seq<Frame>, p: seq<Sample>, q: seq<Sample>, t: Turn, silenceMs: nat)
    ensures var first := Drain(ear, heard, p, t, silenceMs);
            var second := Drain(ear, first.heard, first.pending + q, first.turn, silenceMs);
            Drain(ear, heard, p + q, t, silenceMs) == second.(events := first.events + second.events)
    decreases |p|
  {
    hide Observe, Drain;
    if |p| < FRAME_SAMPLES {
      DrainShort(ear, heard, p, t, silenceMs);
      var second := Drain(ear, heard, p + q, t, silenceMs);
      assert [] + second.events == second.events;
    } else {
      var heard' := heard + [p[..FRAME_SAMPLES]];
      var (t', e) := Observe(t, silenceMs, ear(heard'));
      DrainAppend(ear, heard', p[FRAME_SAMPLES..], q, t', silenceMs);
      assert (p + q)[..FRAME_SAMPLES] == p[..FRAME_SAMPLES];
      assert (p + q)[FRAME_SAMPLES..] == p[FRAME_SAMPLES..] + q;
      DrainFrame(ear, heard, p, t, silenceMs);
      DrainFrame(ear, heard, p + q, t, silenceMs);
      var rest := Drain(ear, heard', p[FRAME_SAMPLES..], t', silenceMs);
      var second := Drain(ear, rest.heard, rest.pending + q, rest.turn, silenceMs);
      assert Emitted(e) + (rest.events + second.events) == (Emitted(e) + rest.events) + second.events;
    }
  }

  /** Pushing a and then b is pushing a + b, wherever the stream is cut, even within a sample. */
  lemma PushAppend(ear: Ear, d: Detector, a: seq<Byte>, b: seq<Byte>)
    ensures var (d1, e1) := Push(ear, d, a);
            var (d2, e2) := Push(ear, d1, b);
            Push(ear, d, a + b) == (d2, e1 + e2)
  {
    hide Drain, Samples, OddByte;
    var all := Stitch(d.odd, a);
    assert Stitch(d.odd, a + b) == all + b;
    SamplesAppend(all, b);
    DrainAppend(ear, d.heard, d.pending + Samples(all), Samples(Stitch(OddByte(all), b)), d.turn, d.silenceMs);
    assert d.pending + Samples(all + b) == (d.pending + Samples(all)) + Samples(Stitch(OddByte(all), b));
  }

  lemma {:induction false} DrainCutsFrames(ear: Ear, heard: seq<Frame>, pending: seq<Sample>, t: Turn, silenceMs: nat)
    ensures var r := Drain(ear, heard, pending, t, silenceMs);
            && heard <= r.heard
            && |r.heard| == |heard| + |pending| / FRAME_SAMPLES
            && r.pending == pending[FRAME_SAMPLES * (|r.heard| - |heard|)..]
            && forall k :: |heard| <= k < |r.heard| ==>
                 r.heard[k] == pending[FRAME_SAMPLES * (k - |heard|)..FRAME_SAMPLES * (k - |heard| + 1)]
    decreases |pending|
  {
    if |pending| >= FRAME_SAMPLES {
      var frame, rest := pending[..FRAME_SAMPLES], pending[FRAME_SAMPLES..];
      DrainCutsFrames(ear, heard + [frame], rest, Observe(t, silenceMs, ear(heard + [frame])).0, silenceMs);
      assert (heard + [frame])[|heard|] == frame;
      var r := Drain(ear, heard, pending, t, silenceMs);
      forall k | |heard| <= k < |r.heard|
        ensures r.heard[k] == pending[FRAME_SAMPLES * (k - |heard|)..FRAME_SAMPLES * (k - |heard| + 1)]
      {
        if k > |heard| {
          assert r.heard[k] == rest[FRAME_SAMPLES * (k - |heard| - 1)..FRAME_SAMPLES * (k - |heard|)];
        } else {
          assert r.heard[k] == (heard + [frame])[k];
        }
      }
    }
  }

  /** From a fresh detector, whatever the chunks, frame k is made of samples 256k to 256k + 255 of the stream. */
  lemma FramesOfTheStream(ear: Ear, silenceMs: nat, stream: seq<Byte>)
    ensures var d := Push(ear, NewDetector(silenceMs), stream).0;
            && |d.heard| == |stream| / 512
            && (forall k :: 0 <= k < |d.heard| ==> d.heard[k] == Samples(stream)[256 * k..256 * (k + 1)])
            && d.pending == Samples(stream)[256 * |d.heard|..]
            && d.odd == OddByte(stream)
  {
    var d := NewDetector(silenceMs);
    assert Stitch(None, stream) == stream && [] + Samples(stream) == Samples(stream);
    DrainCutsFrames(ear, [], Samples(stream), FRESH_TURN, d.silenceMs);
  }

  // ----- when the events fire -----

  /** How many of the last verdicts in a row equal `value`. */
  function TrailingRun(verdicts: seq<bool>, value: bool): (n: nat)
    ensures n <= |verdicts|
    ensures forall i :: |verdicts| - n <= i < |verdicts| ==> verdicts[i] == value
    ensures n < |verdicts| ==> verdicts[|verdicts| - n - 1] != value
  {
    if verdicts == [] || verdicts[|verdicts| - 1] != value then 0
    else TrailingRun(verdicts[..|verdicts| - 1], value) + 1
  }

  /** Whether speech is going on: it starts with 13 voiced frames in a row and ends with the full silence. */
  predicate Speaking(verdicts: seq<bool>, silenceMs: nat) {
    verdicts != []
    && if Speaking(verdicts[..|verdicts| - 1], silenceMs) then FRAME_MS * TrailingRun(verdicts, false) < silenceMs
       else TrailingRun(verdicts, true) >= 13
  }

  /** The turn after a list of verdicts. */
  function Observed(verdicts: seq<bool>, silenceMs: nat): Turn {
    if verdicts == [] then FRESH_TURN
    else Observe(Observed(verdicts[..|verdicts| - 1], silenceMs), silenceMs, verdicts[|verdicts| - 1]).0
  }

  /** The event the last verdict fired. */
  function Fired(verdicts: seq<bool>, silenceMs: nat): Option<VadEvent>
    requires verdicts != []
  {
    Observe(Observed(verdicts[..|verdicts| - 1], silenceMs), silenceMs, verdicts[|verdicts| - 1]).1
  }

  /** The longest silence a 32-bit millisecond counter can tell. */
  const MAX_SILENCE_MS := 0xFFFF_FFF0

  lemma Wrap32Counts(x: nat)
    requires x <= MAX_SILENCE_MS && x % FRAME_MS == 0
    ensures Wrap32(x + FRAME_MS) == if x == MAX_SILENCE_MS then 0 else x + FRAME_MS
    ensures Wrap32(x + FRAME_MS) <= MAX_SILENCE_MS && Wrap32(x + FRAME_MS) % FRAME_MS == 0
  {
  }

  lemma RunGrows(verdicts: seq<bool>, voice: bool, value: bool)
    ensures TrailingRun(verdicts + [voice], value) == if voice == value then TrailingRun(verdicts, value) + 1 else 0
  {
    assert (verdicts + [voice])[..|verdicts|] == verdicts;
  }

  /** The counters are the runs, in milliseconds. */
  ghost predicate CountsRuns(t: Turn, verdicts: seq<bool>, silenceMs: nat) {
    && t.inSpeech == Speaking(verdicts, silenceMs)
    && (if t.inSpeech then t.silenceRun == FRAME_MS * TrailingRun(verdicts, false) < silenceMs
        else t.silenceRun == 0 && t.speechRun == FRAME_MS * TrailingRun(verdicts, true) < MIN_SPEECH_MS)
  }

  lemma SpeakingGrows(verdicts: seq<bool>, voice: bool, silenceMs: nat)
    ensures Speaking(verdicts + [voice], silenceMs)
         == if Speaking(verdicts, silenceMs) then FRAME_MS * TrailingRun(verdicts + [voice], false) < silenceMs
            else TrailingRun(verdicts + [voice], true) >= 13
  {
    assert (verdicts + [voice])[..|verdicts|] == verdicts;
  }

  lemma ObserveCounts(t: Turn, verdicts: seq<bool>, silenceMs: nat, voice: bool)
    requires 100 <= silenceMs <= MAX_SILENCE_MS && CountsRuns(t, verdicts, silenceMs)
    ensures CountsRuns(Observe(t, silenceMs, voice).0, verdicts + [voice], silenceMs)
    ensures var e := Observe(t, silenceMs, voice).1;
            && (e == Some(SpeechStarted) <==> !t.inSpeech && TrailingRun(verdicts + [voice], true) == 13)
            && (e == Some(TurnEnded) <==> t.inSpeech && FRAME_MS * TrailingRun(verdicts + [voice], false) >= silenceMs)
  {
    hide Wrap32, TrailingRun, Speaking;
    SpeakingGrows(verdicts, voice, silenceMs);
    RunGrows(verdicts, voice, true);
    RunGrows(verdicts, voice, false);
    if t.inSpeech {
      Wrap32Counts(t.silenceRun);
    } else {
      Wrap32Counts(t.speechRun);
    }
  }

  lemma {:induction false} CountersCountRuns(verdicts: seq<bool>, silenceMs: nat)
    requires 100 <= silenceMs <= MAX_SILENCE_MS
    ensures CountsRuns(Observed(verdicts, silenceMs), verdicts, silenceMs)
    decreases |verdicts|
  {
    if verdicts != [] {
      hide CountsRuns, Observe;
      var front, last := verdicts[..|verdicts| - 1], verdicts[|verdicts| - 1];
      CountersCountRuns(front, silenceMs);
      ObserveCounts(Observed(front, silenceMs), front, silenceMs, last);
      assert front + [last] == verdicts;
    }
  }

  /** Speech starts exactly on the 13th voiced frame in a row, and a turn ends exactly on the full silence. */
  lemma EventsFireExactly(verdicts: seq<bool>, silenceMs: nat)
    requires verdicts != [] && 100 <= silenceMs <= MAX_SILENCE_MS
    ensures var before := Speaking(verdicts[..|verdicts| - 1], silenceMs);
            && (Fired(verdicts, silenceMs) == Some(SpeechStarted) <==> !before && TrailingRun(verdicts, true) == 13)
            && (Fired(verdicts, silenceMs) == Some(TurnEnded)
                <==> before && FRAME_MS * TrailingRun(verdicts, false) >= silenceMs)
  {
    hide Observe, TrailingRun, Speaking;
    var front, last := verdicts[..|verdicts| - 1], verdicts[|verdicts| - 1];
    CountersCountRuns(front, silenceMs);
    ObserveCounts(Observed(front, silenceMs), front, silenceMs, last);
    assert front + [last] == verdicts;
  }

  /** A longer threshold than the counter can reach is never met: it wraps first, and the turn never ends. */
  lemma {:induction false} UnreachableThresholdNeverEnds(verdicts: seq<bool>, silenceMs: nat)
    requires verdicts != [] && silenceMs > MAX_SILENCE_MS
    ensures Fired(verdicts, silenceMs) != Some(TurnEnded)
    ensures var t := Observed(verdicts, silenceMs); t.silenceRun % FRAME_MS == 0 && t.silenceRun <= MAX_SILENCE_MS
    decreases |verdicts|
  {
    hide Wrap32;
    var front := verdicts[..|verdicts| - 1];
    if front != [] {
      UnreachableThresholdNeverEnds(front, silenceMs);
    }
    Wrap32Counts(Observed(front, silenceMs).silenceRun);
  }

  /** The verdicts on the frames heard from the given one on. */
  function Verdicts(ear: Ear, heard: seq<Frame>, from: nat): (r: seq<bool>)
    requires from <= |heard|
    ensures |r| == |heard| - from
    decreases |heard| - from
  {
    if from == |heard| then [] else [ear(heard[..from + 1])] + Verdicts(ear, heard, from + 1)
  }

  /** The events that the verdicts in `next` fire, one after the other. */
  function EventsOf(before: seq<bool>, next: seq<bool>, silenceMs: nat): seq<VadEvent>
    decreases |next|
  {
    if next == [] then []
    else
      var seen := before + [next[0]];
      Emitted(Fired(seen, silenceMs)) + EventsOf(seen, next[1..], silenceMs)
  }

  /** A push fires what the verdicts on its frames fire, given the verdicts since the turn was reset. */
  lemma {:induction false} DrainFollowsVerdicts(ear: Ear, heard: seq<Frame>, pending: seq<Sample>, before: seq<bool>, silenceMs: nat)
    ensures var r := Drain(ear, heard, pending, Observed(before, silenceMs), silenceMs);
            && heard <= r.heard
            && var next := Verdicts(ear, r.heard, |heard|);
               r.turn == Observed(before + next, silenceMs) && r.events == EventsOf(before, next, silenceMs)
    decreases |pending|
  {
    hide Observe, Drain, TrailingRun, EventsOf, Verdicts;
    var t := Observed(before, silenceMs);
    var r := Drain(ear, heard, pending, t, silenceMs);
    DrainCutsFrames(ear, heard, pending, t, silenceMs);
    if |pending| < FRAME_SAMPLES {
      DrainShort(ear, heard, pending, t, silenceMs);
      NoFramesNoVerdicts(ear, heard, before, silenceMs);
      assert before + [] == before;
    } else {
      var heard' := heard + [pending[..FRAME_SAMPLES]];
      var seen := before + [ear(heard')];
      assert seen[..|before|] == before && seen[|before|] == ear(heard');
      DrainFrame(ear, heard, pending, t, silenceMs);
      DrainFollowsVerdicts(ear, heard', pending[FRAME_SAMPLES..], seen, silenceMs);
      assert r.heard[..|heard| + 1] == heard';
      var rest := Verdicts(ear, r.heard, |heard| + 1);
      var next := Verdicts(ear, r.heard, |heard|);
      VerdictsCons(ear, r.heard, |heard|);
      EventsOfCons(before, ear(heard'), rest, silenceMs);
      assert before + next == seen + rest;
    }
  }

  lemma NoFramesNoVerdicts(ear: Ear, heard: seq<Frame>, before: seq<bool>, silenceMs: nat)
    ensures Verdicts(ear, heard, |heard|) == [] && EventsOf(before, [], silenceMs) == []
  {
  }

  lemma VerdictsCons(ear: Ear, heard: seq<Frame>, from: nat)
    requires from < |heard|
    ensures Verdicts(ear, heard, from) == [ear(heard[..from + 1])] + Verdicts(ear, heard, from + 1)
  {
  }

  lemma EventsOfCons(before: seq<bool>, v: bool, rest: seq<bool>, silenceMs: nat)
    ensures EventsOf(before, [v] + rest, silenceMs)
         == Emitted(Fired(before + [v], silenceMs)) + EventsOf(before + [v], rest, silenceMs)
  {
    hide Fired;
    assert ([v] + rest)[1..] == rest;
  }

  // ----- from the configured threshold to the events -----

  function Joined(pieces: seq<seq<Byte>>): seq<Byte> {
    if pieces == [] then [] else pieces[0] + Joined(pieces[1..])
  }

  /** Pushing one piece after the other. */
  function PushAll(ear: Ear, d: Detector, pieces: seq<seq<Byte>>): (Detector, seq<VadEvent>)
    decreases |pieces|
  {
    if pieces == [] then (d, [])
    else
      var (d1, first) := Push(ear, d, pieces[0]);
      var (d2, rest) := PushAll(ear, d1, pieces[1..]);
      (d2, first + rest)
  }

  lemma PushNothing(ear: Ear, d: Detector)
    requires d.Valid()
    ensures Push(ear, d, []) == (d, [])
  {
    assert d.pending + Samples(Stitch(d.odd, [])) == d.pending;
  }

  lemma {:induction false} PushAllIsPush(ear: Ear, d: Detector, pieces: seq<seq<Byte>>)
    requires d.Valid()
    ensures PushAll(ear, d, pieces) == Push(ear, d, Joined(pieces))
    decreases |pieces|
  {
    hide Push;
    if pieces == [] {
      PushNothing(ear, d);
    } else {
      PushKeepsValid(ear, d, pieces[0]);
      PushAllIsPush(ear, Push(ear, d, pieces[0]).0, pieces[1..]);
      PushAppend(ear, d, pieces[0], Joined(pieces[1..]));
    }
  }

  lemma PushKeepsValid(ear: Ear, d: Detector, bytes: seq<Byte>)
    requires d.Valid()
    ensures Push(ear, d, bytes).0.Valid()
  {
  }

  /** The consecutive blocks of 256 samples, or 512 bytes, of a stream. */
  function FramesOf(stream: seq<Byte>): (frames: seq<Frame>)
    ensures |frames| == |stream| / 512
  {
    seq(|stream| / 512, k requires 0 <= k < |stream| / 512 => Samples(stream)[256 * k..256 * (k + 1)])
  }

  /**
   From a detector built for a threshold, whatever the pieces the stream comes in:
   the events are those of the verdicts on the frames of the stream, for that
   threshold or 100 ms, whichever is longer.
   */
  lemma StreamFires(ear: Ear, silenceMs: nat, pieces: seq<seq<Byte>>)
    ensures var threshold := if silenceMs > 100 then silenceMs else 100;
            var frames := FramesOf(Joined(pieces));
            var r := PushAll(ear, NewDetector(silenceMs), pieces);
            && r.0.heard == frames
            && r.1 == EventsOf([], Verdicts(ear, frames, 0), threshold)
  {
    hide Push, PushAll, EventsOf, Verdicts, Observed, Samples;
    var d := NewDetector(silenceMs);
    PushAllIsPush(ear, d, pieces);
    FramesOfTheStream(ear, silenceMs, Joined(pieces));
    assert Push(ear, d, Joined(pieces)).0.heard == FramesOf(Joined(pieces));
    PushFollowsVerdicts(ear, d, Joined(pieces));
  }

  /** A detector whose turn has just begun fires what the verdicts from then on fire. */
  lemma PushFollowsVerdicts(ear: Ear, d: Detector, bytes: seq<Byte>)
    requires d.turn == FRESH_TURN
    ensures var (d', events) := Push(ear, d, bytes);
            d.heard <= d'.heard && events == EventsOf([], Verdicts(ear, d'.heard, |d.heard|), d.silenceMs)
  {
    hide Drain, EventsOf, Verdicts, Samples;
    DrainFollowsVerdicts(ear, d.heard, d.pending + Samples(Stitch(d.odd, bytes)), [], d.silenceMs);
  }

  /**
   After a reset the events are again those of the verdicts from then on, with the
   threshold the detector was built for, and the capture begins anew.
   */
  lemma ResetStartsAfresh(ear: Ear, d: Detector, pieces: seq<seq<Byte>>)
    requires d.Valid()
    ensures CapturesSince(ResetTurn(d), [], [])
    ensures var (d', events) := PushAll(ear, ResetTurn(d), pieces);
            d.heard <= d'.heard && events == EventsOf([], Verdicts(ear, d'.heard, |d.heard|), d.silenceMs)
  {
    hide Push, EventsOf, Verdicts;
    PushAllIsPush(ear, ResetTurn(d), pieces);
    PushFollowsVerdicts(ear, ResetTurn(d), Joined(pieces));
  }

  /** An event is among those fired exactly if some verdict fires it. */
  lemma {:induction false} EventsAreFired(before: seq<bool>, next: seq<bool>, silenceMs: nat, e: VadEvent)
    ensures e in EventsOf(before, next, silenceMs)
       <==> exists k :: 1 <= k <= |next| && Fired(before + next[..k], silenceMs) == Some(e)
    decreases |next|
  {
    hide Fired;
    if next != [] {
      var seen := before + [next[0]];
      EventsAreFired(seen, next[1..], silenceMs, e);
      assert next[..1] == [next[0]];
      assert forall k :: 1 <= k <= |next| - 1 ==> seen + next[1..][..k] == before + next[..k + 1];
      if k :| 1 <= k <= |next| && Fired(before + next[..k], silenceMs) == Some(e) {
        if k > 1 {
          assert seen + next[1..][..k - 1] == before + next[..k];
        }
      }
    }
  }

  /**
   So a detector built for a threshold ends a turn within a stream exactly if some
   frame of it is the one, after speech began, whose unbroken silence of 16 ms
   frames first reaches that threshold, or 100 ms.
   */
  lemma TurnEndsAtTheThreshold(ear: Ear, silenceMs: nat, pieces: seq<seq<Byte>>)
    requires silenceMs <= MAX_SILENCE_MS
    ensures var threshold := if silenceMs > 100 then silenceMs else 100;
            var verdicts := Verdicts(ear, FramesOf(Joined(pieces)), 0);
            TurnEnded in PushAll(ear, NewDetector(silenceMs), pieces).1
            <==> exists k :: 1 <= k <= |verdicts| && ReachesSilence(verdicts, k, threshold)
  {
    hide Push, PushAll, EventsOf, Verdicts, Fired, ReachesSilence, NewDetector;
    var threshold := if silenceMs > 100 then silenceMs else 100;
    var verdicts := Verdicts(ear, FramesOf(Joined(pieces)), 0);
    StreamFires(ear, silenceMs, pieces);
    EventsAreFired([], verdicts, threshold, TurnEnded);
    forall k | 1 <= k <= |verdicts|
      ensures Fired([] + verdicts[..k], threshold) == Some(TurnEnded) <==> ReachesSilence(verdicts, k, threshold)
    {
      assert [] + verdicts[..k] == verdicts[..k];
      FiresAtTheSilence(verdicts, k, threshold);
    }
  }

  /** After k verdicts speech was going on until just now, and the silence of k's run has reached the threshold. */
  predicate ReachesSilence(verdicts: seq<bool>, k: nat, threshold: nat)
    requires 1 <= k <= |verdicts|
  {
    Speaking(verdicts[..k - 1], threshold) && 16 * TrailingRun(verdicts[..k], false) >= threshold
  }

  lemma FiresAtTheSilence(verdicts: seq<bool>, k: nat, threshold: nat)
    requires 1 <= k <= |verdicts| && 100 <= threshold <= MAX_SILENCE_MS
    ensures Fired(verdicts[..k], threshold) == Some(TurnEnded) <==> ReachesSilence(verdicts, k, threshold)
  {
    hide Fired, Speaking, TrailingRun;
    assert verdicts[..k][..k - 1] == verdicts[..k - 1];
    EventsFireExactly(verdicts[..k], threshold);
  }

  /** Events alternate, beginning with a start unless speech was already going on. */
  ghost predicate Alternate(events: seq<VadEvent>, inSpeech: bool) {
    forall i :: 0 <= i < |events| ==> events[i] == if (i % 2 == 0) == inSpeech then TurnEnded else SpeechStarted
  }

  lemma {:induction false} DrainAlternates(ear: Ear, heard: seq<Frame>, pending: seq<Sample>, t: Turn, silenceMs: nat)
    ensures var r := Drain(ear, heard, pending, t, silenceMs);
            Alternate(r.events, t.inSpeech) && r.turn.inSpeech == ((|r.events| % 2 == 0) == t.inSpeech)
    decreases |pending|
  {
    hide Observe, Drain, Alternate;
    if |pending| < FRAME_SAMPLES {
      DrainShort(ear, heard, pending, t, silenceMs);
      NothingAlternates(t.inSpeech);
    } else {
      var heard' := heard + [pending[..FRAME_SAMPLES]];
      var (t', e) := Observe(t, silenceMs, ear(heard'));
      DrainFrame(ear, heard, pending, t, silenceMs);
      DrainAlternates(ear, heard', pending[FRAME_SAMPLES..], t', silenceMs);
      var rest := Drain(ear, heard', pending[FRAME_SAMPLES..], t', silenceMs).events;
      ObserveFlips(t, silenceMs, ear(heard'));
      if e.None? {
        assert Emitted(e) + rest == rest;
      } else {
        AlternateCons(e.value, rest, t.inSpeech);
      }
    }
  }

  lemma NothingAlternates(inSpeech: bool)
    ensures Alternate([], inSpeech)
  {
  }

  /** An event flips whether speech is going on; without one it stays. */
  lemma ObserveFlips(t: Turn, silenceMs: nat, voice: bool)
    ensures var (t', e) := Observe(t, silenceMs, voice);
            if e.None? then t'.inSpeech == t.inSpeech
            else e.value == (if t.inSpeech then TurnEnded else SpeechStarted) && t'.inSpeech == !t.inSpeech
  {
  }

  lemma AlternateCons(e: VadEvent, rest: seq<VadEvent>, inSpeech: bool)
    requires e == (if inSpeech then TurnEnded else SpeechStarted) && Alternate(rest, !inSpeech)
    ensures Alternate([e] + rest, inSpeech)
  {
    var events := [e] + rest;
    forall i | 0 <= i < |events|
      ensures events[i] == if (i % 2 == 0) == inSpeech then TurnEnded else SpeechStarted
    {
      if i > 0 {
        assert events[i] == rest[i - 1];
      }
    }
  }

  /** In particular a turn ends in a push only if speech was going on before it or started within it. */
  lemma PushAlternates(ear: Ear, d: Detector, bytes: seq<Byte>)
    ensures var (d', events) := Push(ear, d, bytes);
            && Alternate(events, d.turn.inSpeech)
            && d'.turn.inSpeech == ((|events| % 2 == 0) == d.turn.inSpeech)
            && (TurnEnded in events && !d.turn.inSpeech ==> SpeechStarted in events)
            && (SpeechStarted !in events && !d.turn.inSpeech ==> events == [] && !d'.turn.inSpeech)
  {
    DrainAlternates(ear, d.heard, d.pending + Samples(Stitch(d.odd, bytes)), d.turn, d.silenceMs);
    var events := Push(ear, d, bytes).1;
    if events != [] && !d.turn.inSpeech {
      assert events[0] == SpeechStarted;
    }
  }

  // ----- the captured audio -----

  /** Capturing hears what pushing hears: the same frames, the same turn, the same events. */
  lemma CapturingOnlyListens(ear: Ear, d: Detector, bytes: seq<Byte>, capture: seq<Byte>)
    ensures var r, (d', events) := PushCapturing(ear, d, bytes, capture), Push(ear, d, bytes);
            && r.events == events
            && r.detector == d'.(preroll := r.detector.preroll, capturing := r.detector.capturing)
  {
  }

  /** What has been captured since the turn was reset, when `stream` has come in since and `capture` was empty then. */
  ghost predicate CapturesSince(d: Detector, capture: seq<Byte>, stream: seq<Byte>) {
    if d.capturing then capture != [] && exists from :: 0 <= from <= |stream| && capture == stream[from..]
    else capture == [] && d.preroll == LastOf(stream, MAX_PREROLL_BYTES)
  }

  /** A start fires only on a push that brings at least one byte. */
  lemma NothingPushedNothingFires(ear: Ear, d: Detector)
    requires d.Valid()
    ensures Push(ear, d, []).1 == []
  {
    assert d.pending + Samples(Stitch(d.odd, [])) == d.pending;
  }

  /** The capture stays a suffix of the stream; when it begins, it is the preroll: the last 9600 bytes or all. */
  lemma CaptureIsASuffix(ear: Ear, d: Detector, bytes: seq<Byte>, capture: seq<Byte>, stream: seq<Byte>)
    requires d.Valid() && CapturesSince(d, capture, stream)
    ensures var r := PushCapturing(ear, d, bytes, capture);
            && CapturesSince(r.detector, r.capture, stream + bytes) && r.detector.Valid()
            && (r.detector.capturing <==> d.capturing || SpeechStarted in r.events)
            && (!d.capturing && r.detector.capturing ==> r.capture == LastOf(stream + bytes, 9600))
            && (d.capturing ==> r.capture == capture + bytes)
  {
    var r := PushCapturing(ear, d, bytes, capture);
    if d.capturing {
      var from :| 0 <= from <= |stream| && capture == stream[from..];
      assert r.capture == (stream + bytes)[from..];
    } else {
      LastOfAppend(stream, bytes, MAX_PREROLL_BYTES);
      var tail := LastOf(stream + bytes, MAX_PREROLL_BYTES);
      if SpeechStarted in r.events {
        StartNeedsBytes(ear, d.(preroll := tail), bytes);
        assert r.capture == tail == (stream + bytes)[|stream + bytes| - |tail|..];
      }
    }
  }

  lemma StartNeedsBytes(ear: Ear, d: Detector, bytes: seq<Byte>)
    requires d.Valid() && Push(ear, d, bytes).1 != []
    ensures bytes != []
  {
    if bytes == [] {
      NothingPushedNothingFires(ear, d);
    }
  }

  /** What the socket's handler relies on: no start means no event at all, and a start means the capture runs. */
  lemma CaptureFacts(ear: Ear, d: Detector, bytes: seq<Byte>, capture: seq<Byte>)
    ensures var r := PushCapturing(ear, d, bytes, capture);
            && (SpeechStarted in r.events ==> r.detector.capturing)
            && (d.capturing ==> r.detector.capturing)
            && (!d.turn.inSpeech && SpeechStarted !in r.events ==> r.events == [] && !r.detector.turn.inSpeech)
  {
    hide Push;
    PushAlternates(ear, if d.capturing then d else d.(preroll := LastOf(d.preroll + bytes, MAX_PREROLL_BYTES)), bytes);
    PushKeepsRest(ear, if d.capturing then d else d.(preroll := LastOf(d.preroll + bytes, MAX_PREROLL_BYTES)), bytes);
  }

  lemma PushKeepsRest(ear: Ear, d: Detector, bytes: seq<Byte>)
    ensures var d' := Push(ear, d, bytes).0;
            d'.preroll == d.preroll && d'.capturing == d.capturing && d'.silenceMs == d.silenceMs
  {
  }
}
