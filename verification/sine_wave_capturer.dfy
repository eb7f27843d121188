/** The tone generator's phase (src/sine_wave_capturer.cc), in units of 1/sample_rate of a turn, without rounding. */
module Tone {

  /** A 16-bit sample. */
  type Sample = x: int | -0x8000 <= x < 0x8000

  /** What the generator is made with; validated configurations have all three positive. */
  datatype Settings = Settings(sampleRateHz: nat, numChannels: nat, frequencyHz: nat) {
    predicate Valid() {
      sampleRateHz > 0 && numChannels > 0 && frequencyHz > 0
    }

    function SamplesPerChannel(): nat {
      sampleRateHz / 100
    }
  }

  /** One step of the accumulator: at most one turn is taken off. */
  function Advance(phase: nat, s: Settings): nat {
    if phase + s.frequencyHz > s.sampleRateHz then phase + s.frequencyHz - s.sampleRateHz else phase + s.frequencyHz
  }

  /** The phase at sample `n`, as the accumulator computes it. */
  function PhaseAt(n: nat, s: Settings): nat {
    if n == 0 then 0 else Advance(PhaseAt(n - 1, s), s)
  }

  /** The turns taken off in the first `n` steps. */
  function Turns(n: nat, s: Settings): nat {
    if n == 0 then 0
    else Turns(n - 1, s) + (if PhaseAt(n - 1, s) + s.frequencyHz > s.sampleRateHz then 1 else 0)
  }

  /** A full turn does not change the wave. */
  ghost predicate Periodic(wave: int -> Sample, period: nat) {
    forall k :: wave(k + period) == wave(k)
  }

  /** The tone itself, at sample `n`. */
  function ToneAt(wave: int -> Sample, n: nat, s: Settings): Sample
    requires s.Valid()
  {
    wave((n * s.frequencyHz) % s.sampleRateHz)
  }

  lemma {:induction false} PhaseByTurns(n: nat, s: Settings)
    ensures PhaseAt(n, s) + Turns(n, s) * s.sampleRateHz == n * s.frequencyHz
  {
    if n > 0 {
      PhaseByTurns(n - 1, s);
      assert n * s.frequencyHz == (n - 1) * s.frequencyHz + s.frequencyHz;
      assert (Turns(n - 1, s) + 1) * s.sampleRateHz == Turns(n - 1, s) * s.sampleRateHz + s.sampleRateHz;
    }
  }

  lemma {:induction false} TurnsAside(x: nat, turns: nat, period: nat)
    requires period > 0
    ensures (x + turns * period) % period == x % period
  {
    if turns > 0 {
      TurnsAside(x, turns - 1, period);
      assert x + turns * period == (x + (turns - 1) * period) + period;
      OneTurn(x + (turns - 1) * period, period);
    }
  }

  lemma OneTurn(x: nat, period: nat)
    requires period > 0
    ensures (x + period) % period == x % period
  {
    var q := (x + period) / period;
    assert x + period == q * period + (x + period) % period;
    assert x == (q - 1) * period + (x + period) % period;
    SameDivision(x, q - 1, (x + period) % period, period);
  }

  lemma Times(a: int, b: int, d: nat)
    ensures a <= b ==> a * d <= b * d
    ensures (a + 1) * d == a * d + d
  {
  }

  lemma NotBelow(p: int, r: nat, q: int, t: nat, d: nat)
    requires r < d && t < d && p * d + r == q * d + t
    ensures p >= q
  {
    Times(p, p, d);
    Times(p + 1, q, d);
  }

  /** Quotient and remainder are unique. */
  lemma SameDivision(x: nat, q: int, r: nat, d: nat)
    requires r < d && x == q * d + r
    ensures x / d == q && x % d == r
  {
    assert x == (x / d) * d + x % d;
    NotBelow(x / d, x % d, q, r, d);
    NotBelow(q, r, x / d, x % d, d);
  }

  /** The accumulator is congruent to n * frequency, whatever the frequency. */
  lemma PhaseCongruent(n: nat, s: Settings)
    requires s.Valid()
    ensures PhaseAt(n, s) % s.sampleRateHz == (n * s.frequencyHz) % s.sampleRateHz
  {
    PhaseByTurns(n, s);
    TurnsAside(PhaseAt(n, s), Turns(n, s), s.sampleRateHz);
  }

  lemma {:induction false} PhaseBounded(n: nat, s: Settings)
    requires s.frequencyHz <= s.sampleRateHz
    ensures PhaseAt(n, s) <= s.sampleRateHz
  {
    if n > 0 {
      PhaseBounded(n - 1, s);
    }
  }

  lemma {:induction false} PhaseAboveNothing(n: nat, s: Settings)
    requires s.Valid() && n > 0
    ensures PhaseAt(n, s) > 0
  {
    if n > 1 {
      PhaseAboveNothing(n - 1, s);
    }
  }

  /** For the frequencies up to the sample rate, the accumulator in closed form: after the start it never is 0, but a
      whole turn instead. */
  lemma PhaseInClosedForm(n: nat, s: Settings)
    requires s.Valid() && s.frequencyHz <= s.sampleRateHz && n > 0
    ensures PhaseAt(n, s) == (n * s.frequencyHz - 1) % s.sampleRateHz + 1
  {
    hide PhaseAt;
    var x := n * s.frequencyHz;
    PhaseByTurns(n, s);
    PhaseAboveNothing(n, s);
    PhaseBounded(n, s);
    assert x - 1 == Turns(n, s) * s.sampleRateHz + (PhaseAt(n, s) - 1);
    SameDivision(x - 1, Turns(n, s), PhaseAt(n, s) - 1, s.sampleRateHz);
  }

  /** Above the sample rate one turn a step is not enough, and the accumulator grows without bound. */
  lemma {:induction false} PhaseEscapes(n: nat, s: Settings)
    requires s.frequencyHz > s.sampleRateHz
    ensures PhaseAt(n, s) == n * (s.frequencyHz - s.sampleRateHz)
  {
    if n > 0 {
      PhaseEscapes(n - 1, s);
      assert n * (s.frequencyHz - s.sampleRateHz)
          == (n - 1) * (s.frequencyHz - s.sampleRateHz) + (s.frequencyHz - s.sampleRateHz);
    }
  }

  /** The accumulator stays within one turn exactly for the frequencies up to the sample rate. */
  lemma PhaseStaysInTurn(s: Settings)
    requires s.Valid()
    ensures (forall n: nat :: PhaseAt(n, s) <= s.sampleRateHz) <==> s.frequencyHz <= s.sampleRateHz
  {
    hide PhaseAt;
    if s.frequencyHz <= s.sampleRateHz {
      forall n: nat
        ensures PhaseAt(n, s) <= s.sampleRateHz
      {
        PhaseBounded(n, s);
      }
    } else {
      var n := s.sampleRateHz + 1;
      PhaseEscapes(n, s);
      assert n * (s.frequencyHz - s.sampleRateHz) >= n;
      assert PhaseAt(n, s) > s.sampleRateHz;
    }
  }

  lemma {:induction false} WaveTurns(wave: int -> Sample, x: int, turns: nat, period: nat)
    requires Periodic(wave, period)
    ensures wave(x + turns * period) == wave(x)
  {
    if turns > 0 {
      WaveTurns(wave, x, turns - 1, period);
      assert x + turns * period == (x + (turns - 1) * period) + period;
    }
  }

  lemma ReducedPhase(wave: int -> Sample, x: nat, period: nat)
    requires period > 0 && Periodic(wave, period)
    ensures wave(x) == wave(x % period)
  {
    WaveTurns(wave, x % period, x / period, period);
    hide Periodic;
    assert x == x % period + (x / period) * period;
  }

  /** The sample taken at the accumulated phase is the tone's, at every n. */
  lemma WaveAtPhase(wave: int -> Sample, n: nat, s: Settings)
    requires s.Valid() && Periodic(wave, s.sampleRateHz)
    ensures wave(PhaseAt(n, s)) == ToneAt(wave, n, s)
  {
    hide PhaseAt;
    PhaseCongruent(n, s);
    ReducedPhase(wave, PhaseAt(n, s), s.sampleRateHz);
  }

  /** After sample_rate samples, that is after `frequency` full turns, the tone repeats. */
  lemma ToneRepeats(wave: int -> Sample, n: nat, s: Settings)
    requires s.Valid()
    ensures ToneAt(wave, n + s.sampleRateHz, s) == ToneAt(wave, n, s)
  {
    assert (n + s.sampleRateHz) * s.frequencyHz == n * s.frequencyHz + s.frequencyHz * s.sampleRateHz;
    TurnsAside(n * s.frequencyHz, s.frequencyHz, s.sampleRateHz);
  }

  /** `n` copies of one sample: a frame has one for every channel. */
  function Copies(x: Sample, n: nat): (r: seq<Sample>)
    ensures |r| == n
  {
    if n == 0 then [] else Copies(x, n - 1) + [x]
  }

  /** The interleaved samples of `frames` frames from sample `from` on. */
  function Interleaved(wave: int -> Sample, from: nat, frames: nat, s: Settings): seq<Sample>
    requires s.Valid()
  {
    if frames == 0 then []
    else Interleaved(wave, from, frames - 1, s) + Copies(ToneAt(wave, from + frames - 1, s), s.numChannels)
  }

  lemma {:induction false} InterleavedLength(wave: int -> Sample, from: nat, frames: nat, s: Settings)
    requires s.Valid()
    ensures |Interleaved(wave, from, frames, s)| == frames * s.numChannels
  {
    hide ToneAt;
    if frames > 0 {
      InterleavedLength(wave, from, frames - 1, s);
      Times(frames - 1, frames, s.numChannels);
    }
  }

  lemma {:induction false} CopyAt(x: Sample, n: nat, k: nat)
    requires k < n
    ensures Copies(x, n)[k] == x
  {
    if k < n - 1 {
      CopyAt(x, n - 1, k);
    }
  }

  /** In closed form: slot `k` belongs to sample `k / channels`, whatever its channel. */
  lemma {:induction false} SlotAt(wave: int -> Sample, from: nat, frames: nat, k: nat, s: Settings)
    requires s.Valid() && k < frames * s.numChannels
    ensures |Interleaved(wave, from, frames, s)| == frames * s.numChannels
    ensures Interleaved(wave, from, frames, s)[k] == ToneAt(wave, from + k / s.numChannels, s)
    decreases frames
  {
    hide ToneAt;
    var channels := s.numChannels;
    InterleavedLength(wave, from, frames, s);
    InterleavedLength(wave, from, frames - 1, s);
    Times(frames - 1, frames, channels);
    if k < (frames - 1) * channels {
      SlotAt(wave, from, frames - 1, k, s);
    } else {
      var channel := k - (frames - 1) * channels;
      SameDivision(k, frames - 1, channel, channels);
      CopyAt(ToneAt(wave, from + frames - 1, s), channels, channel);
    }
  }

  /** Blocks laid end to end are one interleaved stretch of the tone. */
  lemma {:induction false} BlocksJoin(wave: int -> Sample, from: nat, m: nat, n: nat, s: Settings)
    requires s.Valid()
    ensures Interleaved(wave, from, m, s) + Interleaved(wave, from + m, n, s) == Interleaved(wave, from, m + n, s)
    decreases n
  {
    hide ToneAt, Copies;
    if n == 0 {
      assert Interleaved(wave, from, m, s) + [] == Interleaved(wave, from, m, s);
    } else {
      BlocksJoin(wave, from, m, n - 1, s);
      var frame := Copies(ToneAt(wave, from + m + n - 1, s), s.numChannels);
      assert Interleaved(wave, from, m, s) + (Interleaved(wave, from + m, n - 1, s) + frame)
          == (Interleaved(wave, from, m, s) + Interleaved(wave, from + m, n - 1, s)) + frame;
    }
  }

  lemma SlotInBounds(i: nat, frames: nat, channels: nat)
    requires i < frames
    ensures i * channels + channels <= frames * channels
  {
    assert (i + 1) * channels <= frames * channels;
  }
}

/** The capture thread: nested loops over the ticks, the samples of a block and the channels of a sample. */
module SineWaveCapturer {
  import opened Sequences
  import opened Common
  import opened Tone

  /** What a validated configuration makes of the generator. */
  function ToneSettings(c: AppConfig): Settings
    requires ValidateConfig(c).None?
  {
    Settings(c.audioSampleRateHz, c.audioChannels, c.audioFrequencyHz)
  }

  /** Of the validated configurations, exactly those with a frequency up to the sample rate keep the phase within
      a turn, and exactly those with a sample rate of at least 100 produce sound. */
  lemma ValidatedTone(c: AppConfig, wave: int -> Sample, t: nat)
    requires ValidateConfig(c).None?
    ensures ToneSettings(c).Valid()
    ensures (forall n: nat :: PhaseAt(n, ToneSettings(c)) <= c.audioSampleRateHz)
              <==> c.audioFrequencyHz <= c.audioSampleRateHz
    ensures Block(wave, t, ToneSettings(c)) != [] <==> c.audioSampleRateHz >= 100
    ensures |Block(wave, t, ToneSettings(c))| == (c.audioSampleRateHz / 100) * c.audioChannels
  {
    hide PhaseAt, Block;
    PhaseStaysInTurn(ToneSettings(c));
    BlockLength(wave, t, ToneSettings(c));
  }

  /** Both kinds that fail are accepted. */
  lemma AcceptedThough(rate: nat, frequency: nat)
    requires rate > 0 && frequency > 0
    ensures ValidateConfig(AppConfig("room", "video", "info", 60, 30, 10, frequency, rate, 1)).None?
  {
    assert |"room"| == 4 && |"video"| == 5;
  }

  /** The block of tick `t`, counted from the start of recording. */
  function Block(wave: int -> Sample, t: nat, s: Settings): seq<Sample>
    requires s.Valid()
  {
    Interleaved(wave, t * s.SamplesPerChannel(), s.SamplesPerChannel(), s)
  }

  /** A block lasts 10 ms: a hundred of them hold a second's samples exactly for the rates divisible by 100, and
      below 100 Hz, which no check of the configuration excludes, every block is empty. */
  lemma BlockLength(wave: int -> Sample, t: nat, s: Settings)
    requires s.Valid()
    ensures |Block(wave, t, s)| == s.SamplesPerChannel() * s.numChannels
    ensures Block(wave, t, s) == [] <==> s.sampleRateHz < 100
    ensures 100 * s.SamplesPerChannel() == s.sampleRateHz <==> s.sampleRateHz % 100 == 0
  {
    hide Interleaved;
    InterleavedLength(wave, t * s.SamplesPerChannel(), s.SamplesPerChannel(), s);
    Times(1, s.SamplesPerChannel(), s.numChannels);
  }

  /** The blocks handed over, one for every tick at which a callback was registered. */
  function Delivered(wave: int -> Sample, ticks: seq<bool>, s: Settings): seq<seq<Sample>>
    requires s.Valid()
  {
    if ticks == [] then []
    else
      Delivered(wave, ticks[..|ticks| - 1], s)
      + (if Last(ticks) then [Block(wave, |ticks| - 1, s)] else [])
  }

  /** How many of the ticks found a callback registered. */
  function Heard(ticks: seq<bool>): nat {
    Count((registered: bool) => registered, ticks)
  }

  lemma {:induction false} OneBlockEach(wave: int -> Sample, ticks: seq<bool>, s: Settings)
    requires s.Valid()
    ensures |Delivered(wave, ticks, s)| == Heard(ticks)
  {
    hide Block;
    if ticks != [] {
      var before := ticks[..|ticks| - 1];
      OneBlockEach(wave, before, s);
      assert ticks == before + [Last(ticks)];
      CountMore((registered: bool) => registered, before, Last(ticks));
    }
  }

  /** Whatever the gaps in the registration: a block is handed over for every tick with a callback, and it holds the
      samples of its own moment, for the tone goes on while nobody listens. */
  lemma {:induction false} BlocksKeepTime(wave: int -> Sample, ticks: seq<bool>, t: nat, s: Settings)
    requires s.Valid() && t < |ticks|
    ensures |Delivered(wave, ticks, s)| == Heard(ticks)
    ensures ticks[t] ==>
      && Heard(ticks[..t]) < Heard(ticks)
      && Delivered(wave, ticks, s)[Heard(ticks[..t])]
           == Interleaved(wave, t * (s.sampleRateHz / 100), s.sampleRateHz / 100, s)
  {
    hide Heard, Interleaved;
    OneBlockEach(wave, ticks, s);
    var before := ticks[..|ticks| - 1];
    OneBlockEach(wave, before, s);
    if t < |before| {
      BlocksKeepTime(wave, before, t, s);
      assert before[..t] == ticks[..t];
    }
  }

  function EndToEnd(blocks: seq<seq<Sample>>): seq<Sample> {
    if blocks == [] then [] else EndToEnd(blocks[..|blocks| - 1]) + Last(blocks)
  }

  /** Without a gap in the registration, the blocks laid end to end are the tone from its start, every channel
      alike, with no sample missing, repeated or out of place. */
  lemma {:induction false} BlocksMakeTone(wave: int -> Sample, ticks: seq<bool>, s: Settings)
    requires s.Valid() && false !in ticks
    ensures |Delivered(wave, ticks, s)| == |ticks|
    ensures EndToEnd(Delivered(wave, ticks, s)) == Interleaved(wave, 0, |ticks| * s.SamplesPerChannel(), s)
  {
    hide Interleaved, Settings.SamplesPerChannel, Block;
    if ticks == [] {
      NoFrames(wave, s);
    } else {
      var n := |ticks| - 1;
      assert ticks[n] in ticks;
      var before := Delivered(wave, ticks[..n], s);
      BlocksMakeTone(wave, ticks[..n], s);
      assert Delivered(wave, ticks, s) == before + [Block(wave, n, s)];
      assert (before + [Block(wave, n, s)])[..|before|] == before;
      BlockFollows(wave, n, s);
    }
  }

  lemma BlockFollows(wave: int -> Sample, t: nat, s: Settings)
    requires s.Valid()
    ensures Interleaved(wave, 0, t * s.SamplesPerChannel(), s) + Block(wave, t, s)
         == Interleaved(wave, 0, (t + 1) * s.SamplesPerChannel(), s)
  {
    hide Interleaved, Settings.SamplesPerChannel;
    BlocksJoin(wave, 0, t * s.SamplesPerChannel(), s.SamplesPerChannel(), s);
    Times(t, t, s.SamplesPerChannel());
  }

  lemma NoFrames(wave: int -> Sample, s: Settings)
    requires s.Valid()
    ensures Interleaved(wave, 0, 0, s) == []
  {
  }

  class SineWaveAudioDevice {
    const settings: Settings
    const wave: int -> Sample

    constructor (settings: Settings, wave: int -> Sample)
      ensures this.settings == settings && this.wave == wave
    {
      this.settings, this.wave := settings, wave;
    }

    /** Records for as many ticks as there are entries, each telling whether a callback is registered then. */
    method CaptureLoop(ticks: seq<bool>) returns (delivered: seq<seq<Sample>>)
      requires settings.Valid() && Periodic(wave, settings.sampleRateHz)
      ensures delivered == Delivered(wave, ticks, settings)
    {
      hide Periodic, Interleaved, PhaseAt;
      var samplesPerChannel := settings.sampleRateHz / 100;
      var buffer := new Sample[samplesPerChannel * settings.numChannels];
      var phase := 0;
      delivered := [];
      assert PhaseAt(0, settings) == 0 by {
        PhaseStarts(settings);
      }
      for t := 0 to |ticks|
        invariant phase == PhaseAt(t * samplesPerChannel, settings)
        invariant delivered == Delivered(wave, ticks[..t], settings)
      {
        phase := FillBlock(buffer, t * samplesPerChannel, phase);
        Times(t, t, samplesPerChannel);
        assert ticks[..t + 1][..t] == ticks[..t];
        if ticks[t] {
          delivered := delivered + [buffer[..]];
        }
      }
      assert ticks[..|ticks|] == ticks;
    }

    /** One block: the samples from number `from` on, interleaved, and the phase after them. */
    method FillBlock(buffer: array<Sample>, from: nat, start: nat) returns (phase: nat)
      requires settings.Valid() && Periodic(wave, settings.sampleRateHz)
      requires buffer.Length == settings.SamplesPerChannel() * settings.numChannels
      requires start == PhaseAt(from, settings)
      modifies buffer
      ensures buffer[..] == Interleaved(wave, from, settings.SamplesPerChannel(), settings)
      ensures phase == PhaseAt(from + settings.SamplesPerChannel(), settings)
    {
      hide Periodic, ToneAt, PhaseAt;
      var channels := settings.numChannels;
      phase := start;
      for i := 0 to settings.SamplesPerChannel()
        invariant phase == PhaseAt(from + i, settings)
        invariant i * channels <= buffer.Length
        invariant buffer[..i * channels] == Interleaved(wave, from, i, settings)
      {
        var sample := wave(phase);
        WaveAtPhase(wave, from + i, settings);
        NextPhase(from + i, settings);
        phase := phase + settings.frequencyHz;
        if phase > settings.sampleRateHz {
          phase := phase - settings.sampleRateHz;
        }
        var slot := i * channels;
        SlotInBounds(i, settings.SamplesPerChannel(), channels);
        for channel := 0 to channels
          invariant buffer[..slot + channel] == Interleaved(wave, from, i, settings) + Copies(sample, channel)
        {
          buffer[slot + channel] := sample;
          assert buffer[..slot + channel + 1] == buffer[..slot + channel] + [sample];
        }
        Times(i, i, channels);
      }
      assert buffer[..settings.SamplesPerChannel() * channels] == buffer[..];
    }
  }

  lemma NextPhase(n: nat, s: Settings)
    ensures PhaseAt(n + 1, s) == Advance(PhaseAt(n, s), s)
  {
  }

  lemma PhaseStarts(s: Settings)
    ensures PhaseAt(0, s) == 0
  {
  }
}
