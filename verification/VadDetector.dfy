/** The detector object, updated in place as bytes arrive. */
module VadDetector {
  import opened Prelude
  import opened Bytes
  import opened Collections
  import opened Vad

  class TurnDetector {
    const ear: Ear
    const silenceMs: nat
    var heard: seq<Frame>
    var frameBuf: seq<Sample>
    var leftover: Option<Byte>
    var speechRun: nat
    var silenceRun: nat
    var inSpeech: bool
    var preroll: seq<Byte>
    var capturing: bool

    constructor (ear: Ear, silenceMs: nat)
      ensures this.ear == ear && State() == NewDetector(silenceMs) && State().Valid()
      ensures this.silenceMs == if silenceMs > 100 then silenceMs else 100
    {
      this.ear := ear;
      this.silenceMs := if silenceMs < 100 then 100 else silenceMs;
      heard, frameBuf, leftover := [], [], None;
      speechRun, silenceRun, inSpeech := 0, 0, false;
      preroll, capturing := [], false;
    }

    function State(): Detector
      reads this
    {
      Detector(heard, frameBuf, leftover, Turn(speechRun, silenceRun, inSpeech), preroll, capturing, silenceMs)
    }

    method ObserveFrame(voice: bool) returns (event: Option<VadEvent>)
      modifies this`speechRun, this`silenceRun, this`inSpeech
      ensures (State().turn, event) == Observe(old(State()).turn, silenceMs, voice)
    {
      if voice {
        silenceRun := 0;
        speechRun := Wrap32(speechRun + FRAME_MS);
        if !inSpeech && speechRun >= MIN_SPEECH_MS {
          inSpeech := true;
          return Some(SpeechStarted);
        }
      } else if inSpeech {
        silenceRun := Wrap32(silenceRun + FRAME_MS);
        if silenceRun >= silenceMs {
          inSpeech := false;
          speechRun := 0;
          silenceRun := 0;
          return Some(TurnEnded);
        }
      } else {
        speechRun := 0;
      }
      return None;
    }

    /** Appends the samples of the stitched stream and keeps the odd byte. */
    method TakeBytes(bytes: seq<Byte>)
      modifies this`frameBuf, this`leftover
      ensures frameBuf == old(frameBuf) + Samples(Stitch(old(leftover), bytes))
      ensures leftover == OddByte(Stitch(old(leftover), bytes))
    {
      hide Samples, OddByte, SampleOf;
      ghost var all := Stitch(leftover, bytes);
      var i := 0;
      if leftover.Some? {
        var lo := leftover.value;
        if |bytes| == 0 {
          OneByteIsOdd(lo);
          assert all == [lo];
          return;
        }
        TwoBytesMakeASample(lo, bytes[0], bytes[1..]);
        assert all == [lo, bytes[0]] + bytes[1..];
        leftover := None;
        frameBuf := frameBuf + [SampleOf(lo, bytes[0])];
        i := 1;
      }
      assert i == 0 ==> bytes[i..] == bytes;
      while i < |bytes|
        invariant 0 <= i <= |bytes| && leftover == None
        invariant frameBuf + Samples(bytes[i..]) == old(frameBuf) + Samples(all) && OddByte(bytes[i..]) == OddByte(all)
      {
        if i + 1 == |bytes| {
          leftover := Some(bytes[i]);
          OneByteIsOdd(bytes[i]);
          assert bytes[i..] == [bytes[i]];
          return;
        }
        TwoBytesMakeASample(bytes[i], bytes[i + 1], bytes[i + 2..]);
        assert bytes[i..] == [bytes[i], bytes[i + 1]] + bytes[i + 2..];
        frameBuf := frameBuf + [SampleOf(bytes[i], bytes[i + 1])];
        i := i + 2;
      }
      NoBytesNoSamples();
      assert bytes[i..] == [];
    }

    method DrainFrames() returns (events: seq<VadEvent>)
      modifies this`heard, this`frameBuf, this`speechRun, this`silenceRun, this`inSpeech
      ensures Drained(heard, frameBuf, State().turn, events)
           == Drain(ear, old(heard), old(frameBuf), old(State()).turn, silenceMs)
    {
      hide Drain, Observe;
      events := [];
      ghost var whole := Drain(ear, heard, frameBuf, State().turn, silenceMs);
      while |frameBuf| >= FRAME_SAMPLES
        invariant Continues(whole, events, Drain(ear, heard, frameBuf, State().turn, silenceMs))
        decreases |frameBuf|
      {
        DrainOne(ear, heard, frameBuf, State().turn, silenceMs, whole, events);
        var frame := frameBuf[..FRAME_SAMPLES];
        frameBuf := frameBuf[FRAME_SAMPLES..];
        heard := heard + [frame];
        var e := ObserveFrame(ear(heard));
        if e.Some? {
          events := events + [e.value];
        } else {
          assert events + [] == events;
        }
      }
      DrainShort(ear, heard, frameBuf, State().turn, silenceMs);
      assert events + [] == events;
    }

    method PushPcm16(bytes: seq<Byte>) returns (events: seq<VadEvent>)
      requires State().Valid()
      modifies this`heard, this`frameBuf, this`leftover, this`speechRun, this`silenceRun, this`inSpeech
      ensures (State(), events) == Push(ear, old(State()), bytes) && State().Valid()
    {
      hide Drain, Samples, OddByte, Stitch;
      TakeBytes(bytes);
      events := DrainFrames();
    }

    method ResetTurn()
      modifies this
      ensures State() == Vad.ResetTurn(old(State()))
    {
      speechRun, silenceRun, inSpeech := 0, 0, false;
      capturing := false;
      preroll := [];
    }

    /** Keeps the last bytes in the ring, one by one. */
    method KeepPreroll(bytes: seq<Byte>)
      requires |preroll| <= MAX_PREROLL_BYTES
      modifies this`preroll
      ensures preroll == LastOf(old(preroll) + bytes, MAX_PREROLL_BYTES)
    {
      hide LastOf;
      ghost var seen := preroll;
      LastOfShort(seen, MAX_PREROLL_BYTES);
      assert bytes[0..] == bytes;
      for i := 0 to |bytes|
        invariant preroll == LastOf(seen, MAX_PREROLL_BYTES)
        invariant seen + bytes[i..] == old(preroll) + bytes
      {
        LastOfOneMore(seen, bytes[i], MAX_PREROLL_BYTES);
        if |preroll| >= MAX_PREROLL_BYTES {
          preroll := preroll[1..];
        }
        preroll := preroll + [bytes[i]];
        MoveOne(seen, bytes, i);
        seen := seen + [bytes[i]];
      }
      assert seen + [] == seen;
    }

    method PushPcm16Capturing(bytes: seq<Byte>, capture: seq<Byte>) returns (captured: seq<Byte>, events: seq<VadEvent>)
      requires State().Valid()
      modifies this
      ensures Captured(State(), captured, events) == PushCapturing(ear, old(State()), bytes, capture)
      ensures State().Valid()
    {
      hide Push, LastOf;
      captured := capture;
      if capturing {
        captured := captured + bytes;
      } else {
        KeepPreroll(bytes);
      }
      events := PushPcm16(bytes);
      if !capturing && SpeechStarted in events {
        captured := captured + preroll;
        preroll := [];
        capturing := true;
      }
    }
  }

  lemma MoveOne(seen: seq<Byte>, bytes: seq<Byte>, i: nat)
    requires i < |bytes|
    ensures seen + bytes[i..] == seen + [bytes[i]] + bytes[i + 1..]
  {
    assert bytes[i..] == [bytes[i]] + bytes[i + 1..];
  }

  /** What is left to drain completes what was drained. */
  predicate Continues(whole: Drained, events: seq<VadEvent>, rest: Drained) {
    whole.heard == rest.heard && whole.pending == rest.pending && whole.turn == rest.turn && whole.events == events + rest.events
  }

  lemma DrainOne(ear: Ear, heard: seq<Frame>, pending: seq<Sample>, t: Turn, silenceMs: nat, whole: Drained, events: seq<VadEvent>)
    requires |pending| >= FRAME_SAMPLES && Continues(whole, events, Drain(ear, heard, pending, t, silenceMs))
    ensures var heard' := heard + [pending[..FRAME_SAMPLES]];
            var (t', e) := Observe(t, silenceMs, ear(heard'));
            Continues(whole, events + Emitted(e), Drain(ear, heard', pending[FRAME_SAMPLES..], t', silenceMs))
  {
    hide Observe;
    var heard' := heard + [pending[..FRAME_SAMPLES]];
    var (t', e) := Observe(t, silenceMs, ear(heard'));
    var rest := Drain(ear, heard', pending[FRAME_SAMPLES..], t', silenceMs);
    assert events + (Emitted(e) + rest.events) == (events + Emitted(e)) + rest.events;
  }

  lemma OneByteIsOdd(b: Byte)
    ensures Samples([b]) == [] && OddByte([b]) == Some(b)
  {
  }

  lemma NoBytesNoSamples()
    ensures Samples([]) == [] && OddByte([]) == None
  {
  }

  lemma TwoBytesMakeASample(lo: Byte, hi: Byte, rest: seq<Byte>)
    ensures Samples([lo, hi] + rest) == [SampleOf(lo, hi)] + Samples(rest)
    ensures OddByte([lo, hi] + rest) == OddByte(rest)
  {
    SamplesAppend([lo, hi], rest);
  }
}
