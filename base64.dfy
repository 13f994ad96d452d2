/**
 * Standard base64 (the padded alphabet of section 4 of RFC 4648) as Go's
 * `encoding/base64.StdEncoding` treats it.
 *
 * The decoder is modelled the way Go's non-strict decoder behaves:
 *  - carriage returns and line feeds are skipped wherever they occur;
 *  - the remaining text must come in groups of four characters, the last of
 *    which may end in `==` or `=`; padding anywhere else is an error;
 *  - unused low bits of the last character before the padding need not be
 *    zero (so `dGVzdB==` decodes like `dGVzdA==`).
 * Only success or failure matters to the controller; the offset Go reports
 * in its `CorruptInputError` is not modelled.
 */
module Base64 {
  import opened Wrappers

  /** An octet, as Go's `byte`. */
  type byte = x: int | 0 <= x < 256

  /** The six bits one base64 character stands for. */
  type sextet = x: int | 0 <= x < 64

  const Pad: char := '='

  predicate IsAlphabet(c: char) {
    ('A' <= c <= 'Z') || ('a' <= c <= 'z') || ('0' <= c <= '9') || c == '+' || c == '/'
  }

  /** The value of an alphabet character. */
  function ValueOf(c: char): sextet
    requires IsAlphabet(c)
  {
    if 'A' <= c <= 'Z' then c as int - 'A' as int
    else if 'a' <= c <= 'z' then c as int - 'a' as int + 26
    else if '0' <= c <= '9' then c as int - '0' as int + 52
    else if c == '+' then 62
    else 63
  }

  /** The alphabet character that stands for `v`. */
  function CharOf(v: sextet): (c: char)
    ensures IsAlphabet(c) && ValueOf(c) == v
  {
    if v < 26 then ('A' as int + v) as char
    else if v < 52 then ('a' as int + v - 26) as char
    else if v < 62 then ('0' as int + v - 52) as char
    else if v == 62 then '+'
    else '/'
  }

  predicate IsNewline(c: char) {
    c == '\r' || c == '\n'
  }

  /** The text the decoder actually reads: `s` without CR and LF. */
  function StripNewlines(s: string): (r: string)
    ensures forall i :: 0 <= i < |r| ==> !IsNewline(r[i])
    ensures |r| <= |s|
  {
    if s == [] then []
    else if IsNewline(s[0]) then StripNewlines(s[1..])
    else [s[0]] + StripNewlines(s[1..])
  }

  lemma {:induction false} StripNewlinesNoop(s: string)
    requires forall i :: 0 <= i < |s| ==> !IsNewline(s[i])
    ensures StripNewlines(s) == s
  {
    if s != [] {
      assert !IsNewline(s[0]);
      StripNewlinesNoop(s[1..]);
      assert s == [s[0]] + s[1..];
    }
  }

  /** Three octets from one full group of four characters. */
  function DecodeGroup(v0: sextet, v1: sextet, v2: sextet, v3: sextet): seq<byte> {
    [v0 * 4 + v1 / 16, v1 % 16 * 16 + v2 / 4, v2 % 4 * 64 + v3]
  }

  /** Decoding of newline-free text, one group of four characters at a time. */
  function DecodeQuanta(t: string): Option<seq<byte>>
    decreases |t|
  {
    if |t| == 0 then Some([])
    else if |t| < 4 then None
    else if IsAlphabet(t[0]) && IsAlphabet(t[1]) && IsAlphabet(t[2]) && IsAlphabet(t[3]) then
      match DecodeQuanta(t[4..])
      case None => None
      case Some(rest) => Some(DecodeGroup(ValueOf(t[0]), ValueOf(t[1]), ValueOf(t[2]), ValueOf(t[3])) + rest)
    else if |t| == 4 && IsAlphabet(t[0]) && IsAlphabet(t[1]) && t[2] == Pad && t[3] == Pad then
      Some([ValueOf(t[0]) * 4 + ValueOf(t[1]) / 16])
    else if |t| == 4 && IsAlphabet(t[0]) && IsAlphabet(t[1]) && IsAlphabet(t[2]) && t[3] == Pad then
      Some([ValueOf(t[0]) * 4 + ValueOf(t[1]) / 16, ValueOf(t[1]) % 16 * 16 + ValueOf(t[2]) / 4])
    else None
  }

  /** `StdEncoding.DecodeString(s)`: the octets, or None where Go returns an error. */
  function Decode(s: string): Option<seq<byte>> {
    DecodeQuanta(StripNewlines(s))
  }

  /** `StdEncoding.DecodeString(s)` returns a nil error. */
  predicate IsStdBase64(s: string) {
    Decode(s).Some?
  }

  /**
   * An independent description of the accepted texts: a multiple of four
   * characters, all in the alphabet except a final `=` or a final `==`.
   */
  ghost predicate WellPadded(t: string) {
    && |t| % 4 == 0
    && forall i :: 0 <= i < |t| ==>
         IsAlphabet(t[i]) || (t[i] == Pad && (i == |t| - 1 || (i == |t| - 2 && t[|t| - 1] == Pad)))
  }

  /** The four characters for three octets. */
  function EncodeGroup(b0: byte, b1: byte, b2: byte): (g: string)
    ensures |g| == 4 && IsAlphabet(g[0]) && IsAlphabet(g[1]) && IsAlphabet(g[2]) && IsAlphabet(g[3])
  {
    [CharOf(b0 / 4), CharOf(b0 % 4 * 16 + b1 / 16), CharOf(b1 % 16 * 4 + b2 / 64), CharOf(b2 % 64)]
  }

  /** The last group when one octet is left: two characters and `==`. */
  function EncodeFinalOne(b0: byte): (g: string)
    ensures |g| == 4 && IsAlphabet(g[0]) && IsAlphabet(g[1]) && g[2] == Pad && g[3] == Pad
  {
    [CharOf(b0 / 4), CharOf(b0 % 4 * 16), Pad, Pad]
  }

  /** The last group when two octets are left: three characters and `=`. */
  function EncodeFinalTwo(b0: byte, b1: byte): (g: string)
    ensures |g| == 4 && IsAlphabet(g[0]) && IsAlphabet(g[1]) && IsAlphabet(g[2]) && g[3] == Pad
  {
    [CharOf(b0 / 4), CharOf(b0 % 4 * 16 + b1 / 16), CharOf(b1 % 16 * 4), Pad]
  }

  lemma EncodeGroupDecodes(b0: byte, b1: byte, b2: byte)
    ensures var g := EncodeGroup(b0, b1, b2);
      DecodeGroup(ValueOf(g[0]), ValueOf(g[1]), ValueOf(g[2]), ValueOf(g[3])) == [b0, b1, b2]
  {
    var v1 := b0 % 4 * 16 + b1 / 16;
    var v2 := b1 % 16 * 4 + b2 / 64;
    assert v1 / 16 == b0 % 4 && v1 % 16 == b1 / 16;
    assert v2 / 4 == b1 % 16 && v2 % 4 == b2 / 64;
  }

  lemma EncodeFinalOneDecodes(b0: byte)
    ensures DecodeQuanta(EncodeFinalOne(b0)) == Some([b0])
  {
  }

  lemma EncodeFinalTwoDecodes(b0: byte, b1: byte)
    ensures DecodeQuanta(EncodeFinalTwo(b0, b1)) == Some([b0, b1])
  {
    var v1 := b0 % 4 * 16 + b1 / 16;
    assert v1 / 16 == b0 % 4 && v1 % 16 == b1 / 16;
    assert (b1 % 16 * 4) / 4 == b1 % 16;
  }

  /** `StdEncoding.EncodeToString(b)`. */
  function Encode(b: seq<byte>): (s: string)
    ensures |s| == 4 * ((|b| + 2) / 3)
    ensures forall i :: 0 <= i < |s| ==> IsAlphabet(s[i]) || s[i] == Pad
    decreases |b|
  {
    if |b| == 0 then ""
    else if |b| == 1 then EncodeFinalOne(b[0])
    else if |b| == 2 then EncodeFinalTwo(b[0], b[1])
    else EncodeGroup(b[0], b[1], b[2]) + Encode(b[3..])
  }

  /** Decoding a newline-free text succeeds exactly on the well-padded ones. */
  lemma {:induction false} DecodeQuantaSucceedsIff(t: string)
    ensures DecodeQuanta(t).Some? <==> WellPadded(t)
    decreases |t|
  {
    if |t| >= 4 {
      DecodeQuantaSucceedsIff(t[4..]);
      if IsAlphabet(t[0]) && IsAlphabet(t[1]) && IsAlphabet(t[2]) && IsAlphabet(t[3]) {
        WellPaddedAfterFullGroup(t);
      } else {
        WellPaddedAfterPaddedGroup(t);
      }
    }
  }

  lemma WellPaddedAfterFullGroup(t: string)
    requires |t| >= 4 && IsAlphabet(t[0]) && IsAlphabet(t[1]) && IsAlphabet(t[2]) && IsAlphabet(t[3])
    ensures WellPadded(t) <==> WellPadded(t[4..])
  {
    var rest := t[4..];
    if WellPadded(rest) {
      forall i | 0 <= i < |t|
        ensures IsAlphabet(t[i]) || (t[i] == Pad && (i == |t| - 1 || (i == |t| - 2 && t[|t| - 1] == Pad)))
      {
        if i >= 4 {
          assert t[i] == rest[i - 4];
        }
      }
    }
    if WellPadded(t) {
      forall i | 0 <= i < |rest|
        ensures IsAlphabet(rest[i]) || (rest[i] == Pad && (i == |rest| - 1 || (i == |rest| - 2 && rest[|rest| - 1] == Pad)))
      {
        assert rest[i] == t[i + 4];
      }
    }
  }

  lemma WellPaddedAfterPaddedGroup(t: string)
    requires |t| >= 4 && !(IsAlphabet(t[0]) && IsAlphabet(t[1]) && IsAlphabet(t[2]) && IsAlphabet(t[3]))
    ensures WellPadded(t) <==>
      (|t| == 4 && IsAlphabet(t[0]) && IsAlphabet(t[1]) && (IsAlphabet(t[2]) || t[2] == Pad) && t[3] == Pad)
  {
  }

  /** What `StdEncoding.DecodeString` accepts, stated without the decoder. */
  lemma IsStdBase64Iff(s: string)
    ensures IsStdBase64(s) <==> WellPadded(StripNewlines(s))
  {
    DecodeQuantaSucceedsIff(StripNewlines(s));
  }

  lemma {:induction false} DecodeQuantaEncode(b: seq<byte>)
    ensures DecodeQuanta(Encode(b)) == Some(b)
    decreases |b|
  {
    if |b| == 1 {
      EncodeFinalOneDecodes(b[0]);
      assert b == [b[0]];
    } else if |b| == 2 {
      EncodeFinalTwoDecodes(b[0], b[1]);
      assert b == [b[0], b[1]];
    } else if |b| >= 3 {
      DecodeQuantaEncode(b[3..]);
      DecodeQuantaEncodeStep(b);
    }
  }

  lemma DecodeQuantaEncodeStep(b: seq<byte>)
    requires |b| >= 3 && DecodeQuanta(Encode(b[3..])) == Some(b[3..])
    ensures DecodeQuanta(Encode(b)) == Some(b)
  {
    EncodedGroupThenRest(b[0], b[1], b[2], Encode(b[3..]));
    assert Encode(b) == EncodeGroup(b[0], b[1], b[2]) + Encode(b[3..]);
    SplitFirstThree(b);
  }

  lemma SplitFirstThree(b: seq<byte>)
    requires |b| >= 3
    ensures b == [b[0], b[1], b[2]] + b[3..]
  {
  }

  lemma EncodedGroupThenRest(b0: byte, b1: byte, b2: byte, t: string)
    requires DecodeQuanta(t).Some?
    ensures DecodeQuanta(EncodeGroup(b0, b1, b2) + t) == Some([b0, b1, b2] + DecodeQuanta(t).value)
  {
    EncodeGroupDecodes(b0, b1, b2);
    DecodeQuantaAfterGroup(EncodeGroup(b0, b1, b2), t);
  }

  /** A full group in front of decodable text decodes to its three octets in front. */
  lemma DecodeQuantaAfterGroup(g: string, t: string)
    requires |g| == 4 && IsAlphabet(g[0]) && IsAlphabet(g[1]) && IsAlphabet(g[2]) && IsAlphabet(g[3])
    requires DecodeQuanta(t).Some?
    ensures DecodeQuanta(g + t) == Some(DecodeGroup(ValueOf(g[0]), ValueOf(g[1]), ValueOf(g[2]), ValueOf(g[3])) + DecodeQuanta(t).value)
  {
    var s := g + t;
    assert s[4..] == t;
    assert s[0] == g[0] && s[1] == g[1] && s[2] == g[2] && s[3] == g[3];
  }

  /** Decoding undoes encoding, for every octet sequence. */
  lemma DecodeEncode(b: seq<byte>)
    ensures Decode(Encode(b)) == Some(b)
  {
    StripNewlinesNoop(Encode(b));
    DecodeQuantaEncode(b);
  }

  /** Every encoding is accepted by the decoder. */
  lemma EncodeIsStdBase64(b: seq<byte>)
    ensures IsStdBase64(Encode(b))
  {
    DecodeEncode(b);
  }

  /** Line breaks may be inserted anywhere without changing the decoding. */
  lemma {:induction false} NewlinesIgnored(s: string, k: nat)
    requires k <= |s|
    ensures Decode(s[..k] + "\r\n" + s[k..]) == Decode(s)
  {
    StripConcat(s[..k], "\r\n" + s[k..]);
    StripConcat("\r\n", s[k..]);
    StripConcat(s[..k], s[k..]);
    assert s[..k] + s[k..] == s;
    assert s[..k] + "\r\n" + s[k..] == s[..k] + ("\r\n" + s[k..]);
  }

  lemma {:induction false} StripConcat(a: string, b: string)
    ensures StripNewlines(a + b) == StripNewlines(a) + StripNewlines(b)
  {
    if a == [] {
      assert a + b == b;
    } else {
      var ab := a + b;
      assert ab[0] == a[0];
      assert ab[1..] == a[1..] + b;
      StripConcat(a[1..], b);
      if IsNewline(a[0]) {
        assert StripNewlines(ab) == StripNewlines(a[1..] + b);
        assert StripNewlines(a) == StripNewlines(a[1..]);
      } else {
        assert StripNewlines(ab) == [a[0]] + StripNewlines(a[1..] + b);
        assert StripNewlines(a) == [a[0]] + StripNewlines(a[1..]);
      }
    }
  }

  /** Go's test vector: `EncodeToString([]byte("test"))`. */
  lemma EncodeTest()
    ensures Encode([116, 101, 115, 116]) == "dGVzdA=="
  {
    var b: seq<byte> := [116, 101, 115, 116];
    assert CharOf(29) == 'd' && CharOf(6) == 'G' && CharOf(21) == 'V' && CharOf(51) == 'z' && CharOf(0) == 'A';
    assert EncodeGroup(116, 101, 115) == "dGVz";
    assert EncodeFinalOne(116) == "dA==";
    assert b[3..] == [116];
    assert Encode(b[3..]) == "dA==";
    assert Encode(b) == EncodeGroup(116, 101, 115) + Encode(b[3..]);
  }

  /** The final quanta of the two spellings of "t": one canonical, one with a non-zero unused bit. */
  lemma PaddedQuantaOfT()
    ensures DecodeQuanta("dB==") == Some([116])
    ensures DecodeQuanta("dA==") == Some([116])
  {
    assert ValueOf('d') == 29 && ValueOf('A') == 0 && ValueOf('B') == 1;
  }

  /** The first quantum of "test". */
  lemma QuantumOfTes()
    ensures IsAlphabet('d') && IsAlphabet('G') && IsAlphabet('V') && IsAlphabet('z')
    ensures DecodeGroup(ValueOf('d'), ValueOf('G'), ValueOf('V'), ValueOf('z')) == [116, 101, 115]
  {
    assert ValueOf('d') == 29 && ValueOf('G') == 6 && ValueOf('V') == 21 && ValueOf('z') == 51;
  }

  /** "test" with either spelling of its final quantum. */
  lemma DecodeTestSpelling(t: string)
    requires t == "dB==" || t == "dA=="
    ensures Decode("dGVz" + t) == Some([116, 101, 115, 116])
  {
    PaddedQuantaOfT();
    QuantumOfTes();
    var x := "dGVz" + t;
    DecodeQuantaAfterGroup("dGVz", t);
    assert DecodeQuanta(x) == Some([116, 101, 115] + [116]);
    assert [116, 101, 115] + [116] == [116, 101, 115, 116];
    assert forall i | 0 <= i < |x| :: x[i] in "dGVzAB=";
    StripNewlinesNoop(x);
  }

  /** Non-zero unused bits before the padding are accepted, as in Go's default decoder. */
  lemma NonCanonicalPaddingAccepted()
    ensures Decode("dGVzdB==") == Decode("dGVzdA==") == Some([116, 101, 115, 116])
  {
    DecodeTestSpelling("dB==");
    DecodeTestSpelling("dA==");
    assert "dGVz" + "dB==" == "dGVzdB==";
    assert "dGVz" + "dA==" == "dGVzdA==";
  }
}
