/**
  Acquisition of the one audio sample the piano plays: fetch the recording,
  decode it, and if any step fails synthesize a one-second tone instead, so
  that loading always yields a playable buffer.
*/
module SampleLoader {

  import opened PitchTable

  /** Frames per second; an audio context always runs at a positive rate. */
  type SampleRate = r: int | 0 < r witness 44100

  /** The audio context, as far as the loader uses it: its native sample rate. */
  datatype AudioContext = AudioContext(sampleRate: SampleRate)

  /** The shape of an audio buffer: channel count, frames per channel, frame rate. */
  datatype SampleBuffer = SampleBuffer(numberOfChannels: nat, length: nat, sampleRate: SampleRate)

  /** Playing time of a buffer in seconds: its frame count over its frame rate. */
  function Duration(b: SampleBuffer): (d: real)
    ensures d >= 0.0
    ensures d * b.sampleRate as real == b.length as real
  {
    b.length as real / b.sampleRate as real
  }

  /** What reading the fetched body gave: a read error, a decode error, or a decoded buffer. */
  datatype BodyOutcome = BodyReadFailed | DecodeFailed | Decoded(buffer: SampleBuffer)

  /** What fetching the recording gave: a network error, or a response with an HTTP status. */
  datatype FetchOutcome = NetworkFailed | Response(status: int, body: BodyOutcome)

  /** A response counts as successful when its status is in the range 200-299. */
  predicate Ok(status: int)
  {
    200 <= status <= 299
  }

  /** Whether the recording was fetched with a successful status and decoded. */
  predicate Succeeded(outcome: FetchOutcome)
  {
    outcome.Response? && Ok(outcome.status) && outcome.body.Decoded?
  }

  /** Length in seconds of the synthesized tone. */
  const FallbackSeconds: real := 1.0

  /**
    The buffer made when loading fails: one channel at the context's rate,
    holding `sampleRate * 1.0` frames, converted to a whole frame count.
  */
  function FallbackBuffer(ctx: AudioContext): (b: SampleBuffer)
    ensures b.numberOfChannels == 1
    ensures b.sampleRate == ctx.sampleRate
    ensures b.length == ctx.sampleRate
    ensures Duration(b) == FallbackSeconds
  {
    SampleBuffer(1, (ctx.sampleRate as real * FallbackSeconds).Floor, ctx.sampleRate)
  }

  /**
    Loading never fails: the decoded recording when the fetch succeeded with
    an OK status and the body decoded, the synthesized tone otherwise.
  */
  function Load(ctx: AudioContext, outcome: FetchOutcome): (b: SampleBuffer)
    ensures Succeeded(outcome) ==> b == outcome.body.buffer
    ensures !Succeeded(outcome) ==> b == FallbackBuffer(ctx)
  {
    match outcome
    case NetworkFailed => FallbackBuffer(ctx)
    case Response(status, body) =>
      if !Ok(status) then FallbackBuffer(ctx)
      else
        match body
        case Decoded(decoded) => decoded
        case BodyReadFailed => FallbackBuffer(ctx)
        case DecodeFailed => FallbackBuffer(ctx)
  }

  /** Every failed load still leaves a one-second mono buffer to play. */
  lemma FailedLoadIsOneSecondMono(ctx: AudioContext, outcome: FetchOutcome)
    requires !Succeeded(outcome)
    ensures Load(ctx, outcome).numberOfChannels == 1
    ensures Duration(Load(ctx, outcome)) == 1.0
  {
  }

  /** The value of `Math.PI`, written out as a decimal. */
  const MathPi: real := 3.141592653589793

  /**
    Frame `i` of the synthesized tone: a sine at the base frequency under an
    exponential decay, scaled by 0.3. The sine and exponential are given as
    functions, since the model does not compute transcendental values.
  */
  function ToneSample(rate: SampleRate, i: nat, sin: real -> real, exp: real -> real): (r: real)
    ensures (forall x :: -1.0 <= sin(x) <= 1.0) && (forall x :: x <= 0.0 ==> 0.0 < exp(x) <= 1.0)
            ==> -0.3 <= r <= 0.3
  {
    var t := i as real / rate as real;
    var wave, decay := sin(2.0 * MathPi * BaseFrequency * t), exp(-t * 3.0);
    UnitProduct(wave, decay);
    wave * decay * 0.3
  }

  /** A factor of magnitude at most 1 times a factor in (0, 1] has magnitude at most 1. */
  lemma UnitProduct(a: real, b: real)
    ensures -1.0 <= a <= 1.0 && 0.0 < b <= 1.0 ==> -1.0 <= a * b <= 1.0
  {
    if -1.0 <= a <= 1.0 && 0.0 < b <= 1.0 {
      if a >= 0.0 {
        assert a * b <= 1.0 * b;
      } else {
        assert (-a) * b <= 1.0 * b;
      }
    }
  }

  /**
    The fallback path: allocate the fallback buffer's single channel and fill
    it frame by frame with the decaying tone.
  */
  method SynthesizeFallback(ctx: AudioContext, sin: real -> real, exp: real -> real)
    returns (b: SampleBuffer, data: array<real>)
    ensures b == FallbackBuffer(ctx)
    ensures fresh(data) && data.Length == b.length
    ensures forall i :: 0 <= i < data.Length ==> data[i] == ToneSample(ctx.sampleRate, i, sin, exp)
  {
    var sampleRate := ctx.sampleRate;
    var length := (sampleRate as real * FallbackSeconds).Floor;
    b := SampleBuffer(1, length, sampleRate);
    data := new real[length];
    var i := 0;
    while i < length
      invariant 0 <= i <= length
      invariant forall k :: 0 <= k < i ==> data[k] == ToneSample(sampleRate, k, sin, exp)
    {
      var t := i as real / sampleRate as real;
      var envelope := exp(-t * 3.0);
      data[i] := sin(2.0 * MathPi * BaseFrequency * t) * envelope * 0.3;
      i := i + 1;
    }
  }
}
