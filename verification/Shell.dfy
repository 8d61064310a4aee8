/** A command's output, cut to its last bytes while it is still arriving. */
module Shell {

  newtype Byte = b: int | 0 <= b < 256

  const MAX_OUTPUT_BYTES := 64 * 1024

  /** The last bytes of a stream, at most so many. */
  function Last(s: seq<Byte>, most: nat): (kept: seq<Byte>)
    ensures |kept| == if |s| < most then |s| else most
    ensures kept == s[|s| - |kept|..]
  {
    if |s| <= most then s else s[|s| - most..]
  }

  /** What a collector holds. */
  datatype Buffer = Buffer(text: seq<Byte>, dropped: bool)

  const EMPTY := Buffer([], false)

  /** `add`: lets the text run to twice what is kept before cutting it. */
  function Added(b: Buffer, chunk: seq<Byte>): Buffer {
    var text := b.text + chunk;
    if |text| <= 2 * MAX_OUTPUT_BYTES then Buffer(text, b.dropped) else Buffer(Last(text, MAX_OUTPUT_BYTES), true)
  }

  function Collected(chunks: seq<seq<Byte>>): Buffer {
    if chunks == [] then EMPTY else Added(Collected(chunks[..|chunks| - 1]), chunks[|chunks| - 1])
  }

  /** All that was sent. */
  function Whole(chunks: seq<seq<Byte>>): seq<Byte> {
    if chunks == [] then [] else Whole(chunks[..|chunks| - 1]) + chunks[|chunks| - 1]
  }

  datatype Clamped = Clamped(text: seq<Byte>, truncated: bool)

  /** `clamp` */
  function Clamp(text: seq<Byte>): Clamped {
    if |text| <= MAX_OUTPUT_BYTES then Clamped(text, false) else Clamped(Last(text, MAX_OUTPUT_BYTES), true)
  }

  /** What the answer says of one stream: cut while arriving, or on the way out. */
  function Reported(b: Buffer): Clamped {
    var clamped := Clamp(b.text);
    Clamped(clamped.text, clamped.truncated || b.dropped)
  }

  /** At every moment a collector holds a bounded end of what came: all of it, or at least what will be kept. */
  lemma {:induction false} CollectedIsAnEnd(chunks: seq<seq<Byte>>)
    ensures var b, whole := Collected(chunks), Whole(chunks);
      && |b.text| <= 2 * MAX_OUTPUT_BYTES && |b.text| <= |whole| && b.text == whole[|whole| - |b.text|..]
      && (if b.dropped then |b.text| >= MAX_OUTPUT_BYTES && |whole| > 2 * MAX_OUTPUT_BYTES else b.text == whole)
  {
    if chunks != [] {
      CollectedIsAnEnd(chunks[..|chunks| - 1]);
      var b, before, chunk := Collected(chunks[..|chunks| - 1]), Whole(chunks[..|chunks| - 1]), chunks[|chunks| - 1];
      assert (before + chunk)[|before| - |b.text|..] == b.text + chunk;
    }
  }

  /** Cutting while it arrives is cutting at the end, however the stream was cut into chunks. */
  lemma CuttingEarlyIsCuttingLate(chunks: seq<seq<Byte>>)
    ensures Reported(Collected(chunks)).text == Last(Whole(chunks), MAX_OUTPUT_BYTES)
    ensures Reported(Collected(chunks)).truncated <==> |Whole(chunks)| > MAX_OUTPUT_BYTES
    ensures Reported(Collected(chunks)) == Clamp(Whole(chunks))
  {
    CollectedIsAnEnd(chunks);
    var b, whole := Collected(chunks), Whole(chunks);
    assert whole[|whole| - |b.text|..][|b.text| - |Last(b.text, MAX_OUTPUT_BYTES)|..] ==
      whole[|whole| - |Last(b.text, MAX_OUTPUT_BYTES)|..];
  }

  class Collector {
    var text: seq<Byte>
    var dropped: bool

    constructor ()
      ensures View() == EMPTY
    {
      text, dropped := [], false;
    }

    function View(): Buffer
      reads this
    {
      Buffer(text, dropped)
    }

    method Add(chunk: seq<Byte>)
      modifies this
      ensures View() == Added(old(View()), chunk)
    {
      text := text + chunk;
      if |text| <= MAX_OUTPUT_BYTES * 2 { return; }
      text := Last(text, MAX_OUTPUT_BYTES);
      dropped := true;
    }
  }

  /** A chunk on one of the command's two pipes. */
  datatype Arrival = Out(chunk: seq<Byte>) | Err(chunk: seq<Byte>)

  function OnOut(arrivals: seq<Arrival>): seq<seq<Byte>> {
    if arrivals == [] then []
    else OnOut(arrivals[..|arrivals| - 1]) + if arrivals[|arrivals| - 1].Out? then [arrivals[|arrivals| - 1].chunk] else []
  }

  function OnErr(arrivals: seq<Arrival>): seq<seq<Byte>> {
    if arrivals == [] then []
    else OnErr(arrivals[..|arrivals| - 1]) + if arrivals[|arrivals| - 1].Err? then [arrivals[|arrivals| - 1].chunk] else []
  }

  lemma OneMoreChunk(chunks: seq<seq<Byte>>, chunk: seq<Byte>)
    ensures Collected(chunks + [chunk]) == Added(Collected(chunks), chunk)
  {
    assert (chunks + [chunk])[..|chunks|] == chunks;
  }

  lemma OneMoreArrival(arrivals: seq<Arrival>, n: nat)
    requires n < |arrivals|
    ensures OnOut(arrivals[..n + 1]) == if arrivals[n].Out? then OnOut(arrivals[..n]) + [arrivals[n].chunk] else OnOut(arrivals[..n])
    ensures OnErr(arrivals[..n + 1]) == if arrivals[n].Err? then OnErr(arrivals[..n]) + [arrivals[n].chunk] else OnErr(arrivals[..n])
  {
    assert arrivals[..n + 1][..n] == arrivals[..n];
  }

  /** However the two pipes interleave: the last bytes of each, and whether either lost any. */
  method Run(arrivals: seq<Arrival>) returns (stdout: seq<Byte>, stderr: seq<Byte>, truncated: bool)
    ensures stdout == Last(Whole(OnOut(arrivals)), MAX_OUTPUT_BYTES)
    ensures stderr == Last(Whole(OnErr(arrivals)), MAX_OUTPUT_BYTES)
    ensures truncated <==> |Whole(OnOut(arrivals))| > MAX_OUTPUT_BYTES || |Whole(OnErr(arrivals))| > MAX_OUTPUT_BYTES
  {
    var outBuffer := new Collector();
    var errBuffer := new Collector();
    for n := 0 to |arrivals|
      invariant fresh(outBuffer) && fresh(errBuffer) && outBuffer != errBuffer
      invariant outBuffer.View() == Collected(OnOut(arrivals[..n])) && errBuffer.View() == Collected(OnErr(arrivals[..n]))
    {
      OneMoreArrival(arrivals, n);
      match arrivals[n] {
        case Out(chunk) =>
          OneMoreChunk(OnOut(arrivals[..n]), chunk);
          outBuffer.Add(chunk);
        case Err(chunk) =>
          OneMoreChunk(OnErr(arrivals[..n]), chunk);
          errBuffer.Add(chunk);
      }
    }
    assert arrivals[..|arrivals|] == arrivals;
    CuttingEarlyIsCuttingLate(OnOut(arrivals));
    CuttingEarlyIsCuttingLate(OnErr(arrivals));
    var out, err := Clamp(outBuffer.text), Clamp(errBuffer.text);
    stdout, stderr := out.text, err.text;
    truncated := out.truncated || err.truncated || outBuffer.dropped || errBuffer.dropped;
  }
}
