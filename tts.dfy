/** Turning a base64 audio payload into bytes, and bytes into 16-bit PCM
    samples when the browser cannot decode them itself. */
module Tts {
  import opened Types

  /** An element of a `Uint8Array`. */
  type byte = x: int | 0 <= x < 256

  // ---------------------------------------------------------------------------
  // Cleaning

  /** The 64 characters of the base64 alphabet (section 4 of RFC 4648). */
  predicate IsAlphabetChar(c: char) {
    'A' <= c <= 'Z' || 'a' <= c <= 'z' || '0' <= c <= '9' || c == '+' || c == '/'
  }

  /** The characters the cleaning pattern keeps: the alphabet and the pad. */
  predicate Kept(c: char) {
    IsAlphabetChar(c) || c == '='
  }

  /** Removes every character outside `A-Za-z0-9+/=`, keeping the order of
      the others. */
  function Clean(s: string): (r: string)
    ensures |r| <= |s|
    ensures forall i :: 0 <= i < |r| ==> Kept(r[i])
    ensures forall i :: 0 <= i < |s| && Kept(s[i]) ==> s[i] in r
    ensures forall i :: 0 <= i < |r| ==> r[i] in s
    ensures (forall i :: 0 <= i < |s| ==> Kept(s[i])) ==> r == s
  {
    if s == [] then []
    else
      var rest := Clean(s[1..]);
      assert forall i :: 1 <= i < |s| ==> s[i] == s[1..][i - 1];
      if Kept(s[0]) then [s[0]] + rest else rest
  }

  /** Cleaning works character by character: it distributes over concatenation. */
  lemma {:induction false} CleanAppend(a: string, b: string)
    ensures Clean(a + b) == Clean(a) + Clean(b)
  {
    if a == [] {
      assert a + b == b;
    } else {
      assert (a + b)[0] == a[0];
      assert (a + b)[1..] == a[1..] + b;
      CleanAppend(a[1..], b);
    }
  }

  // ---------------------------------------------------------------------------
  // Forgiving base64 decode (`atob`)

  /** The value of an alphabet character. */
  function SextetValue(c: char): (v: nat)
    requires IsAlphabetChar(c)
    ensures v < 64
  {
    if 'A' <= c <= 'Z' then c as int - 'A' as int
    else if 'a' <= c <= 'z' then c as int - 'a' as int + 26
    else if '0' <= c <= '9' then c as int - '0' as int + 52
    else if c == '+' then 62
    else 63
  }

  /** The alphabet character for a value below 64. */
  function SextetChar(v: nat): (c: char)
    requires v < 64
    ensures IsAlphabetChar(c) && SextetValue(c) == v
  {
    if v < 26 then ('A' as int + v) as char
    else if v < 52 then ('a' as int + v - 26) as char
    else if v < 62 then ('0' as int + v - 52) as char
    else if v == 62 then '+'
    else '/'
  }

  predicate IsAsciiWhitespace(c: char) {
    c == '\t' || c == '\n' || c as int == 0x0C || c == '\r' || c == ' '
  }

  function RemoveAsciiWhitespace(s: string): (r: string)
    ensures forall i :: 0 <= i < |r| ==> !IsAsciiWhitespace(r[i]) && r[i] in s
    ensures (forall i :: 0 <= i < |s| ==> !IsAsciiWhitespace(s[i])) ==> r == s
  {
    if s == [] then []
    else
      var rest := RemoveAsciiWhitespace(s[1..]);
      assert forall i :: 1 <= i < |s| ==> s[i] == s[1..][i - 1];
      if IsAsciiWhitespace(s[0]) then rest else [s[0]] + rest
  }

  /** When the length is a multiple of four, one or two trailing `=` go. */
  function StripPadding(s: string): (r: string)
    ensures r == s || (|s| % 4 == 0 && |s| - 2 <= |r| < |s| && r == s[..|r|] &&
                       forall i :: |r| <= i < |s| ==> s[i] == '=')
    ensures |s| % 4 == 0 && |s| >= 1 && s[|s| - 1] == '=' ==> |r| < |s|
  {
    if |s| % 4 == 0 && |s| >= 2 && s[|s| - 2..] == "==" then s[..|s| - 2]
    else if |s| % 4 == 0 && |s| >= 1 && s[|s| - 1] == '=' then s[..|s| - 1]
    else s
  }

  /** The three bytes a full group of four characters carries. */
  function DecodeQuad(c0: char, c1: char, c2: char, c3: char): seq<char>
    requires IsAlphabetChar(c0) && IsAlphabetChar(c1) && IsAlphabetChar(c2) && IsAlphabetChar(c3)
  {
    var v0, v1, v2, v3 := SextetValue(c0), SextetValue(c1), SextetValue(c2), SextetValue(c3);
    [(v0 * 4 + v1 / 16) as char, ((v1 % 16) * 16 + v2 / 4) as char, ((v2 % 4) * 64 + v3) as char]
  }

  /** Decodes alphabet characters four at a time; a final group of three
      yields two bytes and one of two yields one, the leftover bits dropped. */
  function DecodeGroups(s: string): (r: string)
    requires forall i :: 0 <= i < |s| ==> IsAlphabetChar(s[i])
    requires |s| % 4 != 1
    ensures |r| == |s| * 3 / 4
    ensures forall i :: 0 <= i < |r| ==> r[i] as int < 256
  {
    if |s| >= 4 then
      DecodeQuad(s[0], s[1], s[2], s[3]) + DecodeGroups(s[4..])
    else if |s| == 3 then
      var v0, v1, v2 := SextetValue(s[0]), SextetValue(s[1]), SextetValue(s[2]);
      [(v0 * 4 + v1 / 16) as char, ((v1 % 16) * 16 + v2 / 4) as char]
    else if |s| == 2 then
      [(SextetValue(s[0]) * 4 + SextetValue(s[1]) / 16) as char]
    else
      []
  }

  /** The browser's `atob`: `None` where it throws, which is when a lone
      character is left over or a character outside the alphabet (a stray
      `=` included) remains once the padding is gone. */
  function Atob(s: string): (r: Option<string>)
    ensures r.Some? ==> forall i :: 0 <= i < |r.value| ==> r.value[i] as int < 256
    ensures r.Some? ==> |r.value| == |StripPadding(RemoveAsciiWhitespace(s))| * 3 / 4
  {
    var t := StripPadding(RemoveAsciiWhitespace(s));
    if |t| % 4 == 1 then None
    else if exists i :: 0 <= i < |t| && !IsAlphabetChar(t[i]) then None
    else Some(DecodeGroups(t))
  }

  // ---------------------------------------------------------------------------
  // The standard encoding, as the reference the decoder is checked against

  /** Bytes as the "binary string" `atob` produces: one character per byte. */
  function Latin1(b: seq<byte>): (r: string)
    ensures |r| == |b| && forall i :: 0 <= i < |b| ==> r[i] as int == b[i]
  {
    seq(|b|, i requires 0 <= i < |b| => b[i] as char)
  }

  /** One more group of three bytes and four characters keeps both residues. */
  lemma GroupStep(n: nat, m: nat)
    requires n >= 3
    ensures (n - 3) % 3 == n % 3 && (m + 4) % 4 == m % 4
  {
  }

  /** The four characters of a full group of three bytes. */
  function EncodeTriple(b0: byte, b1: byte, b2: byte): (r: string)
    ensures |r| == 4 && forall i :: 0 <= i < 4 ==> IsAlphabetChar(r[i])
  {
    [SextetChar(b0 / 4), SextetChar((b0 % 4) * 16 + b1 / 16),
     SextetChar((b1 % 16) * 4 + b2 / 64), SextetChar(b2 % 64)]
  }

  /** The three characters of a final pair of bytes, before padding. */
  function EncodePair(b0: byte, b1: byte): (r: string)
    ensures |r| == 3 && forall i :: 0 <= i < 3 ==> IsAlphabetChar(r[i])
  {
    [SextetChar(b0 / 4), SextetChar((b0 % 4) * 16 + b1 / 16), SextetChar((b1 % 16) * 4)]
  }

  /** The two characters of a final single byte, before padding. */
  function EncodeSingle(b0: byte): (r: string)
    ensures |r| == 2 && forall i :: 0 <= i < 2 ==> IsAlphabetChar(r[i])
  {
    [SextetChar(b0 / 4), SextetChar((b0 % 4) * 16)]
  }

  /** The unpadded characters of the standard base64 encoding of `b`. */
  function Unpadded(b: seq<byte>): (r: string)
    ensures forall i :: 0 <= i < |r| ==> IsAlphabetChar(r[i])
    ensures |r| % 4 == (if |b| % 3 == 0 then 0 else |b| % 3 + 1)
  {
    if |b| >= 3 then
      GroupStep(|b|, |Unpadded(b[3..])|);
      EncodeTriple(b[0], b[1], b[2]) + Unpadded(b[3..])
    else if |b| == 2 then EncodePair(b[0], b[1])
    else if |b| == 1 then EncodeSingle(b[0])
    else []
  }

  /** The standard (padded) base64 encoding of `b`. */
  function Encode(b: seq<byte>): (r: string)
    ensures |r| % 4 == 0
  {
    Unpadded(b) + (if |b| % 3 == 1 then "==" else if |b| % 3 == 2 then "=" else "")
  }

  lemma QuadRoundTrip(b0: byte, b1: byte, b2: byte)
    ensures var t := EncodeTriple(b0, b1, b2);
      DecodeQuad(t[0], t[1], t[2], t[3]) == [b0 as char, b1 as char, b2 as char]
  {
    var v1 := (b0 % 4) * 16 + b1 / 16;
    var v2 := (b1 % 16) * 4 + b2 / 64;
    assert v1 / 16 == b0 % 4 && v1 % 16 == b1 / 16;
    assert v2 / 4 == b1 % 16 && v2 % 4 == b2 / 64;
  }

  lemma PairRoundTrip(b0: byte, b1: byte)
    ensures DecodeGroups(EncodePair(b0, b1)) == [b0 as char, b1 as char]
  {
    var v1 := (b0 % 4) * 16 + b1 / 16;
    assert v1 / 16 == b0 % 4 && v1 % 16 == b1 / 16;
    assert ((b1 % 16) * 4) / 4 == b1 % 16;
  }

  lemma SingleRoundTrip(b0: byte)
    ensures DecodeGroups(EncodeSingle(b0)) == [b0 as char]
  {
    assert ((b0 % 4) * 16) / 16 == b0 % 4;
  }

  /** Decoding proceeds group by group. */
  lemma DecodeGroupsCons(t: string, rest: string)
    requires |t| == 4 && forall i :: 0 <= i < 4 ==> IsAlphabetChar(t[i])
    requires forall i :: 0 <= i < |rest| ==> IsAlphabetChar(rest[i])
    requires |rest| % 4 != 1
    ensures forall i :: 0 <= i < |t + rest| ==> IsAlphabetChar((t + rest)[i])
    ensures |t + rest| % 4 != 1
    ensures DecodeGroups(t + rest) == DecodeQuad(t[0], t[1], t[2], t[3]) + DecodeGroups(rest)
  {
    assert (t + rest)[4..] == rest;
  }

  /** One full group in front of bytes that already round-trip. */
  lemma GroupStepRoundTrip(b: seq<byte>)
    requires |b| >= 3
    requires DecodeGroups(Unpadded(b[3..])) == Latin1(b[3..])
    ensures DecodeGroups(Unpadded(b)) == Latin1(b)
  {
    var rest := b[3..];
    var t := EncodeTriple(b[0], b[1], b[2]);
    DecodeGroupsCons(t, Unpadded(rest));
    QuadRoundTrip(b[0], b[1], b[2]);
    Latin1Split(b);
  }

  lemma Latin1Split(b: seq<byte>)
    requires |b| >= 3
    ensures Latin1(b) == [b[0] as char, b[1] as char, b[2] as char] + Latin1(b[3..])
  {
    var l, r := Latin1(b), [b[0] as char, b[1] as char, b[2] as char] + Latin1(b[3..]);
    forall i | 0 <= i < |b| ensures l[i] == r[i] {
      if i >= 3 {
        assert r[i] == Latin1(b[3..])[i - 3];
      }
    }
  }

  /** Decoding the unpadded encoding of any bytes gives them back, group by
      group. */
  lemma {:induction false} GroupsRoundTrip(b: seq<byte>)
    ensures DecodeGroups(Unpadded(b)) == Latin1(b)
  {
    var u := Unpadded(b);
    if |b| >= 3 {
      GroupsRoundTrip(b[3..]);
      GroupStepRoundTrip(b);
    } else if |b| == 2 {
      PairRoundTrip(b[0], b[1]);
      assert Latin1(b) == [b[0] as char, b[1] as char];
    } else if |b| == 1 {
      SingleRoundTrip(b[0]);
      assert Latin1(b) == [b[0] as char];
    }
  }

  /** Stripping the padding of a standard encoding leaves its unpadded part. */
  lemma StripEncode(b: seq<byte>)
    ensures StripPadding(Encode(b)) == Unpadded(b)
  {
    var u := Unpadded(b);
    var e := Encode(b);
    if |b| % 3 == 0 && |u| > 0 {
      assert e == u;
      assert e[|e| - 1] == u[|u| - 1];
      assert IsAlphabetChar(u[|u| - 1]);
      assert |u| >= 2 && e[|e| - 2..][1] == u[|u| - 1];
    } else if |b| % 3 == 1 {
      assert e[|e| - 2..] == "==";
      assert e[..|e| - 2] == u;
    } else if |b| % 3 == 2 {
      assert e[|e| - 1] == '=';
      assert e[|e| - 2] == u[|u| - 1];
      assert e[|e| - 2..] != "==";
      assert e[..|e| - 1] == u;
    }
  }

  /** A standard encoding holds only characters that survive both cleaning
      and whitespace removal. */
  lemma EncodingIsClean(b: seq<byte>)
    ensures Clean(Encode(b)) == Encode(b)
    ensures RemoveAsciiWhitespace(Encode(b)) == Encode(b)
  {
    var e := Encode(b);
    var u := Unpadded(b);
    forall i | 0 <= i < |e| ensures Kept(e[i]) && !IsAsciiWhitespace(e[i]) {
      if i < |u| { assert e[i] == u[i]; }
    }
  }

  /** Cleaning then decoding the standard encoding of any bytes gives back
      exactly those bytes. */
  lemma EncodeRoundTrip(b: seq<byte>)
    ensures Atob(Clean(Encode(b))) == Some(Latin1(b))
    ensures CharCodes(Latin1(b)) == b
  {
    var e := Encode(b);
    EncodingIsClean(b);
    StripEncode(b);
    GroupsRoundTrip(b);
  }

  // ---------------------------------------------------------------------------
  // decodeBase64

  /** The character codes of a binary string, as `charCodeAt` reads them. */
  function CharCodes(s: string): (r: seq<byte>)
    requires forall i :: 0 <= i < |s| ==> s[i] as int < 256
    ensures |r| == |s| && forall i :: 0 <= i < |s| ==> r[i] == s[i] as int
  {
    seq(|s|, i requires 0 <= i < |s| => s[i] as int)
  }

  /** `decodeBase64`: cleans the text, decodes it, and copies the binary
      string into a fresh byte array one character code at a time. `None`
      stands for the exception `atob` throws. */
  method DecodeBase64(base64: string) returns (r: Option<array<byte>>)
    ensures r.Some? <==> Atob(Clean(base64)).Some?
    ensures r.Some? ==> fresh(r.value) && r.value[..] == CharCodes(Atob(Clean(base64)).value)
  {
    var cleanBase64 := Clean(base64);
    var binaryString := Atob(cleanBase64);
    if binaryString.None? {
      return None;
    }
    var s := binaryString.value;
    ghost var codes := CharCodes(s);
    var len := |s|;
    var bytes := new byte[len];
    for i := 0 to len
      invariant bytes[..i] == codes[..i]
    {
      bytes[i] := s[i] as int;
      assert bytes[..i + 1] == bytes[..i] + [codes[i]];
    }
    assert bytes[..] == bytes[..len];
    r := Some(bytes);
  }

  // ---------------------------------------------------------------------------
  // Raw PCM fallback

  /** The bytes after alignment: odd lengths get one zero byte. */
  function Aligned(b: seq<byte>): (r: seq<byte>)
    ensures |r| % 2 == 0 && |r| / 2 == (|b| + 1) / 2
    ensures r[..|b|] == b && (|b| % 2 == 0 ==> r == b)
  {
    if |b| % 2 == 0 then b else b + [0]
  }

  /** A signed 16-bit value read from its low and high byte. */
  function Int16LE(lo: byte, hi: byte): (v: int)
    ensures -32768 <= v <= 32767
    ensures Unsigned16(v) == lo + 256 * hi
  {
    var u := lo + 256 * hi;
    if u >= 32768 then u - 65536 else u
  }

  /** The unsigned 16-bit pattern of a signed 16-bit value (two's complement). */
  function Unsigned16(v: int): int {
    if v >= 0 then v else v + 65536
  }

  /** The low and high byte of a signed 16-bit value. */
  function LowByte(v: int): byte
    requires -32768 <= v <= 32767
  {
    Unsigned16(v) % 256
  }

  function HighByte(v: int): byte
    requires -32768 <= v <= 32767
  {
    Unsigned16(v) / 256
  }

  /** Reading back the two bytes of any 16-bit value gives the value. */
  lemma Int16RoundTrip(v: int)
    requires -32768 <= v <= 32767
    ensures Int16LE(LowByte(v), HighByte(v)) == v
  {
    assert LowByte(v) + 256 * HighByte(v) == Unsigned16(v);
  }

  /** The `Int16Array` view of an even-length buffer. */
  function Int16View(a: seq<byte>): (r: seq<int>)
    requires |a| % 2 == 0
    ensures |r| == |a| / 2
  {
    seq(|a| / 2, i requires 0 <= i < |a| / 2 => Int16LE(a[2 * i], a[2 * i + 1]))
  }

  /** The mono samples of a byte buffer: sample `i` is bytes `2i` and
      `2i + 1` of the aligned buffer, little-endian. */
  function PcmSamples(b: seq<byte>): (r: seq<int>)
    ensures |r| == (|b| + 1) / 2
    ensures forall i :: 0 <= i < |r| ==> -32768 <= r[i] <= 32767
    ensures forall i :: 0 <= i < |b| / 2 ==> r[i] == Int16LE(b[2 * i], b[2 * i + 1])
    ensures |b| % 2 == 1 ==> r[|r| - 1] == b[|b| - 1]
  {
    Int16View(Aligned(b))
  }

  /** The little-endian bytes of 16-bit samples. */
  function PcmBytes(samples: seq<int>): (r: seq<byte>)
    requires forall i :: 0 <= i < |samples| ==> -32768 <= samples[i] <= 32767
    ensures |r| == 2 * |samples|
    ensures forall i :: 0 <= i < |samples| ==>
      r[2 * i] == LowByte(samples[i]) && r[2 * i + 1] == HighByte(samples[i])
  {
    if samples == [] then []
    else [LowByte(samples[0]), HighByte(samples[0])] + PcmBytes(samples[1..])
  }

  /** Two more bytes in front of an even buffer put one more sample in front. */
  lemma PcmSamplesCons(lo: byte, hi: byte, rest: seq<byte>)
    requires |rest| % 2 == 0
    ensures PcmSamples([lo, hi] + rest) == [Int16LE(lo, hi)] + PcmSamples(rest)
  {
    var b := [lo, hi] + rest;
    var r := PcmSamples(b);
    var t := [Int16LE(lo, hi)] + PcmSamples(rest);
    forall i | 0 <= i < |r| ensures r[i] == t[i] {
      if i > 0 {
        assert b[2 * i] == rest[2 * (i - 1)] && b[2 * i + 1] == rest[2 * (i - 1) + 1];
      }
    }
  }

  /** Framing inverts sample serialisation: every 16-bit sample sequence is
      read back unchanged. */
  lemma {:induction false} PcmRoundTrip(samples: seq<int>)
    requires forall i :: 0 <= i < |samples| ==> -32768 <= samples[i] <= 32767
    ensures PcmSamples(PcmBytes(samples)) == samples
  {
    if samples != [] {
      var v := samples[0];
      PcmRoundTrip(samples[1..]);
      PcmSamplesCons(LowByte(v), HighByte(v), PcmBytes(samples[1..]));
      Int16RoundTrip(v);
      assert samples == [v] + samples[1..];
    }
  }

  /** The alignment step: an even buffer is used as it is, an odd one is
      copied into a fresh buffer one byte longer, left zero at the end. */
  method Align(data: array<byte>) returns (pcmData: array<byte>)
    ensures data.Length % 2 == 0 ==> pcmData == data
    ensures data.Length % 2 != 0 ==> fresh(pcmData)
    ensures pcmData[..] == Aligned(data[..])
  {
    pcmData := data;
    if data.Length % 2 != 0 {
      var aligned := new byte[data.Length + 1](_ => 0);
      forall i | 0 <= i < data.Length {
        aligned[i] := data[i];
      }
      assert aligned[..] == data[..] + [0];
      pcmData := aligned;
    }
  }

  /** Mono output, as the fallback fixes it. */
  const NumChannels := 1

  /** Where frame `i` of channel `c` sits in an `n`-channel interleaved view. */
  function Slot(i: nat, c: nat, n: nat): nat {
    i * n + c
  }

  /** Every slot of every whole frame lies inside the view. */
  lemma SlotsInRange(n: nat, len: nat)
    requires n >= 1
    ensures forall i: nat, c: nat :: c < n && i < len / n ==> Slot(i, c, n) < len
  {
    forall i: nat, c: nat | c < n && i < len / n
      ensures Slot(i, c, n) < len
    {
      assert (i + 1) * n <= (len / n) * n <= len;
    }
  }

  /** Fills an `n`-channel buffer from an interleaved view, channel by
      channel: frame `i` of channel `c` is element `i * n + c`. */
  method FillChannels(view: seq<int>, n: nat) returns (buffer: array2<int>)
    requires n >= 1 && |view| % n == 0
    ensures fresh(buffer)
    ensures buffer.Length0 == n && buffer.Length1 == |view| / n
    ensures forall c: nat, i: nat :: c < n && i < |view| / n ==>
      Slot(i, c, n) < |view| && buffer[c, i] == view[Slot(i, c, n)]
  {
    var frameCount := |view| / n;
    SlotsInRange(n, |view|);
    buffer := new int[n, frameCount];
    for channel := 0 to n
      invariant forall c: nat, i: nat :: c < channel && i < frameCount ==>
        buffer[c, i] == view[Slot(i, c, n)]
    {
      for i := 0 to frameCount
        invariant forall c: nat, j: nat :: c < channel && j < frameCount ==>
          buffer[c, j] == view[Slot(j, c, n)]
        invariant forall j: nat :: j < i ==> buffer[channel, j] == view[Slot(j, channel, n)]
      {
        buffer[channel, i] := view[Slot(i, channel, n)];
      }
    }
  }

  /** The fallback's frames: the aligned bytes read as 16-bit samples and
      laid out in a single-channel buffer of `ceil(n / 2)` frames. */
  method PcmFrames(data: array<byte>) returns (buffer: array2<int>)
    ensures fresh(buffer)
    ensures buffer.Length0 == NumChannels && buffer.Length1 == (data.Length + 1) / 2
    ensures forall i :: 0 <= i < buffer.Length1 ==> buffer[0, i] == PcmSamples(data[..])[i]
  {
    var pcmData := Align(data);
    var dataInt16 := Int16View(pcmData[..]);
    buffer := FillChannels(dataInt16, NumChannels);
  }

  // ---------------------------------------------------------------------------
  // playGeminiAudio

  /** What reaches the speakers: nothing, the bytes as the browser decodes
      them, or the fallback's PCM samples. */
  datatype Playback = Silent | Native(bytes: seq<byte>) | Pcm(samples: seq<int>)

  /** `playGeminiAudio`; `nativeDecodes` says whether the browser's own
      decoder accepts the bytes. A payload `atob` rejects is caught and
      plays nothing. So is one that decodes to no bytes at all: the browser
      rejects an empty buffer, and the fallback's `createBuffer` refuses a
      length of zero frames. */
  method PlayGeminiAudio(base64Audio: string, nativeDecodes: seq<byte> -> bool) returns (p: Playback)
    ensures base64Audio == "" ==> p == Silent
    ensures p.Silent? <==> (base64Audio == "" || Atob(Clean(base64Audio)).None? ||
      Atob(Clean(base64Audio)).value == "")
    ensures p.Native? ==> nativeDecodes(p.bytes) && p.bytes == CharCodes(Atob(Clean(base64Audio)).value)
    ensures p.Pcm? ==> (!nativeDecodes(CharCodes(Atob(Clean(base64Audio)).value)) &&
      p.samples == PcmSamples(CharCodes(Atob(Clean(base64Audio)).value)))
  {
    if base64Audio == "" {
      return Silent;
    }
    var byteArray := DecodeBase64(base64Audio);
    if byteArray.None? {
      return Silent;
    }
    var data := byteArray.value;
    if data.Length == 0 {
      return Silent;
    }
    if nativeDecodes(data[..]) {
      return Native(data[..]);
    }
    var buffer := PcmFrames(data);
    var samples := seq(buffer.Length1, i requires 0 <= i < buffer.Length1 reads buffer => buffer[0, i]);
    assert samples == PcmSamples(data[..]);
    p := Pcm(samples);
  }
}
