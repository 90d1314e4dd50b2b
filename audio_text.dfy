/** Pure helpers of the Uplift HTTP TTS adapter: the text-length cap, the WAV header strip,
    fixed-size chunking of the audio content, and Python's `str()` of a non-negative int
    (used to format the HTTP status in error messages). */
module AudioText {

  /** One byte of a Python `bytes` object. */
  newtype byte = b: int | 0 <= b < 256

  /** Uplift's maximum number of characters per synthesis request. */
  const MaxTextLength: nat := 2500
  /** Size of the canonical RIFF/WAVE header skipped for WAV formats. */
  const WavHeaderLength: nat := 44
  /** Output-format names with this prefix carry a WAV header. */
  const WavPrefix: string := "WAV_"

  function Min(a: int, b: int): int { if a <= b then a else b }

  /** `text[:2500]` applied only when the text is longer than the cap. */
  function Truncate(text: string): (sent: string)
    ensures |sent| <= MaxTextLength
    ensures sent <= text
    ensures |text| <= MaxTextLength ==> sent == text
    ensures |text| > MaxTextLength ==> |sent| == MaxTextLength
  {
    if |text| > MaxTextLength then text[..MaxTextLength] else text
  }

  lemma TruncateIdempotent(text: string)
    ensures Truncate(Truncate(text)) == Truncate(text)
  {
  }

  /** Python's `str.startswith`. */
  predicate StartsWith(s: string, prefix: string)
  {
    prefix <= s
  }

  /** `audio_bytes[44:]` for a format whose name starts with `WAV_`, the bytes unchanged otherwise
      (a Python slice past the end is empty). */
  function StripHeader(outputFormat: string, body: seq<byte>): (content: seq<byte>)
    ensures StartsWith(outputFormat, WavPrefix) && |body| > WavHeaderLength ==>
              |content| == |body| - WavHeaderLength && body == body[..WavHeaderLength] + content
    ensures StartsWith(outputFormat, WavPrefix) && |body| <= WavHeaderLength ==> content == []
    ensures !StartsWith(outputFormat, WavPrefix) ==> content == body
  {
    if StartsWith(outputFormat, WavPrefix) then
      if |body| <= WavHeaderLength then [] else body[WavHeaderLength..]
    else
      body
  }

  /** The audio content the adapter emits is always a suffix of the response body. */
  lemma StripHeaderIsSuffix(outputFormat: string, body: seq<byte>)
    ensures var content := StripHeader(outputFormat, body);
            |content| <= |body| && content == body[|body| - |content|..]
  {
  }

  /** The slices `content[i:i+size]` for `i` in `range(0, len(content), size)`. */
  function Chunks(content: seq<byte>, size: nat): (chunks: seq<seq<byte>>)
    requires size > 0
    ensures forall k :: 0 <= k < |chunks| ==> 0 < |chunks[k]| <= size
    ensures forall k :: 0 <= k < |chunks| - 1 ==> |chunks[k]| == size
    decreases |content|
  {
    if |content| == 0 then []
    else if |content| <= size then [content]
    else [content[..size]] + Chunks(content[size..], size)
  }

  /** Concatenation of a sequence of byte strings, in order. */
  function Flatten(chunks: seq<seq<byte>>): seq<byte>
  {
    if chunks == [] then [] else chunks[0] + Flatten(chunks[1..])
  }

  lemma {:induction false} FlattenAppend(a: seq<seq<byte>>, b: seq<seq<byte>>)
    ensures Flatten(a + b) == Flatten(a) + Flatten(b)
    decreases |a|
  {
    if a == [] {
      assert a + b == b;
    } else {
      assert (a + b)[1..] == a[1..] + b;
      FlattenAppend(a[1..], b);
    }
  }

  /** The chunks, concatenated in order, give back the content exactly. */
  lemma {:induction false} FlattenChunks(content: seq<byte>, size: nat)
    requires size > 0
    ensures Flatten(Chunks(content, size)) == content
    decreases |content|
  {
    if |content| == 0 {
    } else if |content| <= size {
      assert Flatten([content]) == content + Flatten([]);
    } else {
      var chunks := Chunks(content, size);
      assert chunks[0] == content[..size];
      assert chunks[1..] == Chunks(content[size..], size);
      FlattenChunks(content[size..], size);
      assert content == content[..size] + content[size..];
    }
  }

  lemma MulAtLeast(k: int, n: int)
    requires k >= 1 && n > 0
    ensures k * n >= n
  {
  }

  lemma DivStep(x: nat, n: nat)
    requires n > 0
    ensures (x + n) / n == x / n + 1
  {
    var q, r := x / n, x % n;
    var q', r' := (x + n) / n, (x + n) % n;
    assert q' * n + r' == (q + 1) * n + r;
    if q' > q + 1 {
      MulAtLeast(q' - (q + 1), n);
      assert false;
    } else if q' < q + 1 {
      MulAtLeast(q + 1 - q', n);
      assert false;
    }
  }

  /** The number of chunks is ceil(|content| / size). */
  lemma {:induction false} ChunkCount(content: seq<byte>, size: nat)
    requires size > 0
    ensures |Chunks(content, size)| == (|content| + size - 1) / size
    decreases |content|
  {
    if |content| == 0 {
      assert (size - 1) / size == 0;
    } else if |content| <= size {
      var x := |content| - 1;
      assert x < size;
      assert x / size == 0;
      DivStep(x, size);
    } else {
      var rest := content[size..];
      ChunkCount(rest, size);
      DivStep(|rest| + size - 1, size);
    }
  }

  /** Unfolds one step of `Chunks` at an arbitrary offset, the step the chunk loop takes. */
  lemma ChunksAt(content: seq<byte>, i: nat, size: nat)
    requires size > 0 && i < |content|
    ensures Chunks(content[i..], size)
            == [content[i..Min(i + size, |content|)]] + Chunks(content[Min(i + size, |content|)..], size)
  {
    var rest := content[i..];
    if |rest| <= size {
      assert rest == content[i..Min(i + size, |content|)];
      assert content[Min(i + size, |content|)..] == [];
    } else {
      assert rest[..size] == content[i..Min(i + size, |content|)];
      assert rest[size..] == content[Min(i + size, |content|)..];
    }
  }

  function DigitChar(d: nat): (c: char)
    requires d < 10
    ensures '0' <= c <= '9'
  {
    ('0' as int + d) as char
  }

  predicate IsDigit(c: char) { '0' <= c <= '9' }

  predicate AllDigits(s: string) { forall k :: 0 <= k < |s| ==> IsDigit(s[k]) }

  /** Python's `str(n)` for a non-negative int: decimal digits without leading zeros. */
  function NatToString(n: nat): (s: string)
    ensures |s| > 0 && AllDigits(s)
    ensures s[0] == '0' ==> s == "0" && n == 0
    decreases n
  {
    if n < 10 then [DigitChar(n)] else NatToString(n / 10) + [DigitChar(n % 10)]
  }

  /** Reads a string of decimal digits back as a number. */
  function ParseDecimal(s: string): nat
    requires AllDigits(s)
    decreases |s|
  {
    if s == [] then 0
    else ParseDecimal(s[..|s| - 1]) * 10 + (s[|s| - 1] as int - '0' as int)
  }

  /** The decimal rendering of the status can be read back: it determines the status. */
  lemma {:induction false} ParseNatToString(n: nat)
    ensures ParseDecimal(NatToString(n)) == n
    decreases n
  {
    var s := NatToString(n);
    if n >= 10 {
      ParseNatToString(n / 10);
      assert s[..|s| - 1] == NatToString(n / 10);
    }
  }

  lemma NatToStringInjective(m: nat, n: nat)
    requires NatToString(m) == NatToString(n)
    ensures m == n
  {
    ParseNatToString(m);
    ParseNatToString(n);
  }
}
