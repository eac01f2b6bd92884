/**
 The form body of AWS query requests (crates/nclav-driver/src/aws.rs, `urlencoding::encode` and
 `query_api`), against the parser for such bodies (URL Standard, section 5.1).
 */
module FormBody {
  import opened Prelude

  const SPACE: Byte := 0x20
  const PERCENT: Byte := 0x25
  const AMPERSAND: Byte := 0x26
  const PLUS: Byte := 0x2B
  const EQUALS: Byte := 0x3D

  predicate Unreserved(b: Byte) {
    || 0x41 <= b <= 0x5A || 0x61 <= b <= 0x7A || 0x30 <= b <= 0x39
    || b == 0x2D || b == 0x5F || b == 0x2E || b == 0x7E
  }

  // ----- encoding -----

  /** An upper-case hexadecimal digit. */
  function HexDigit(n: int): Byte
    requires 0 <= n < 16
  {
    if n < 10 then 0x30 + n else 0x41 + (n - 10)
  }

  function EncodeByte(b: Byte): Bytes {
    if Unreserved(b) then [b]
    else if b == SPACE then [PLUS]
    else [PERCENT, HexDigit(b / 16), HexDigit(b % 16)]
  }

  function EncodeAll(s: Bytes): Bytes {
    if s == [] then [] else EncodeByte(s[0]) + EncodeAll(s[1..])
  }

  method Encode(s: Bytes) returns (out: Bytes)
    ensures out == EncodeAll(s) && Decode(out) == s && Encoded(out)
  {
    out := [];
    for i := 0 to |s|
      invariant out + EncodeAll(s[i..]) == EncodeAll(s)
    {
      assert s[i..][0] == s[i] && s[i..][1..] == s[i + 1..];
      Assoc(out, EncodeByte(s[i]), EncodeAll(s[i + 1..]));
      var b := s[i];
      if Unreserved(b) {
        out := out + [b];
      } else if b == SPACE {
        out := out + [PLUS];
      } else {
        out := out + [PERCENT, HexDigit(b / 16), HexDigit(b % 16)];
      }
    }
    DecodeEncodes(s);
    EncodeAllEncoded(s);
  }

  datatype Param = Param(key: Bytes, value: Bytes)

  function Pair(p: Param): Bytes {
    p.key + ([EQUALS] + EncodeAll(p.value))
  }

  /** The parameters as `key=value`, joined by '&'; keys are written as they are. */
  function Body(params: seq<Param>): Bytes {
    if params == [] then []
    else if |params| == 1 then Pair(params[0])
    else Pair(params[0]) + ([AMPERSAND] + Body(params[1..]))
  }

  // ----- decoding -----

  predicate IsHex(b: Byte) {
    0x30 <= b <= 0x39 || 0x41 <= b <= 0x46 || 0x61 <= b <= 0x66
  }

  function HexValue(b: Byte): (n: int)
    requires IsHex(b)
    ensures 0 <= n < 16
  {
    if b <= 0x39 then b - 0x30 else if b <= 0x46 then b - 0x41 + 10 else b - 0x61 + 10
  }

  predicate EscapeAt(s: Bytes) {
    |s| >= 3 && s[0] == PERCENT && IsHex(s[1]) && IsHex(s[2])
  }

  /** '+' stands for a space, %HH for a byte, anything else for itself. */
  function Decode(s: Bytes): Bytes {
    if s == [] then []
    else if EscapeAt(s) then [HexValue(s[1]) * 16 + HexValue(s[2])] + Decode(s[3..])
    else [if s[0] == PLUS then SPACE else s[0]] + Decode(s[1..])
  }

  /** Everything before the first `sep`, and everything after it. */
  function SplitFirst(s: Bytes, sep: Byte): Option<(Bytes, Bytes)> {
    if s == [] then None
    else if s[0] == sep then Some(([], s[1..]))
    else
      var r := SplitFirst(s[1..], sep);
      if r.None? then None else Some(([s[0]] + r.value.0, r.value.1))
  }

  /** One piece between '&'s: nothing for an empty one; without '=' it is all name. */
  function ParsePiece(s: Bytes): seq<Param> {
    if s == [] then []
    else
      match SplitFirst(s, EQUALS)
      case None => [Param(Decode(s), [])]
      case Some((name, value)) => [Param(Decode(name), Decode(value))]
  }

  function ParseForm(s: Bytes): seq<Param>
    decreases |s|
  {
    match SplitFirst(s, AMPERSAND)
    case None => ParsePiece(s)
    case Some((piece, rest)) =>
      SplitSizes(s, AMPERSAND);
      ParsePiece(piece) + ParseForm(rest)
  }

  lemma {:induction false} SplitSizes(s: Bytes, sep: Byte)
    ensures SplitFirst(s, sep).None? <==> sep !in s
    ensures SplitFirst(s, sep).Some? ==>
              var (a, b) := SplitFirst(s, sep).value; s == a + ([sep] + b) && sep !in a && |b| < |s|
  {
    if s != [] && s[0] != sep {
      SplitSizes(s[1..], sep);
      assert s == [s[0]] + s[1..];
      if SplitFirst(s[1..], sep).Some? {
        var (a, b) := SplitFirst(s[1..], sep).value;
        assert s == ([s[0]] + a) + ([sep] + b);
      }
    }
  }

  lemma {:induction false} SplitAt(a: Bytes, sep: Byte, b: Bytes)
    requires sep !in a
    ensures SplitFirst(a + ([sep] + b), sep) == Some((a, b))
  {
    var s := a + ([sep] + b);
    if a == [] {
      assert s == [sep] + b && s[1..] == b;
    } else {
      assert s[1..] == a[1..] + ([sep] + b);
      assert a == [a[0]] + a[1..];
      assert a[0] in a;
      SplitAt(a[1..], sep, b);
    }
  }

  // ----- values survive -----

  lemma {:induction false} HexRoundTrip(n: int)
    requires 0 <= n < 16
    ensures IsHex(HexDigit(n)) && HexValue(HexDigit(n)) == n
  {
  }

  lemma {:induction false} DecodeOne(b: Byte, rest: Bytes)
    ensures Decode(EncodeByte(b) + rest) == [b] + Decode(rest)
  {
    var s := EncodeByte(b) + rest;
    if Unreserved(b) || b == SPACE {
      assert s[1..] == rest;
    } else {
      HexRoundTrip(b / 16);
      HexRoundTrip(b % 16);
      assert s[3..] == rest;
    }
  }

  lemma {:induction false} DecodeEncodes(s: Bytes)
    ensures Decode(EncodeAll(s)) == s
  {
    if s != [] {
      DecodeOne(s[0], EncodeAll(s[1..]));
      DecodeEncodes(s[1..]);
    }
  }

  predicate UpperHex(b: Byte) {
    0x30 <= b <= 0x39 || 0x41 <= b <= 0x46
  }

  /** What the encoder writes: unreserved bytes, '+', and upper-case escapes of all other bytes but the space. */
  predicate Encoded(s: Bytes) {
    || s == []
    || if s[0] == PERCENT then
         && |s| >= 3 && UpperHex(s[1]) && UpperHex(s[2])
         && !Unreserved(HexValue(s[1]) * 16 + HexValue(s[2])) && HexValue(s[1]) * 16 + HexValue(s[2]) != SPACE
         && Encoded(s[3..])
       else (Unreserved(s[0]) || s[0] == PLUS) && Encoded(s[1..])
  }

  lemma {:induction false} EncodeAllEncoded(s: Bytes)
    ensures Encoded(EncodeAll(s))
  {
    if s != [] {
      EncodeAllEncoded(s[1..]);
      var b, rest := s[0], EncodeAll(s[1..]);
      var t := EncodeByte(b) + rest;
      if Unreserved(b) || b == SPACE {
        assert t[1..] == rest;
      } else {
        HexRoundTrip(b / 16);
        HexRoundTrip(b % 16);
        assert t[3..] == rest;
      }
    }
  }

  /** These are exactly the texts that encoding gives back after decoding. */
  lemma {:induction false} EncodedIffRoundTrip(s: Bytes)
    ensures Encoded(s) <==> EncodeAll(Decode(s)) == s
    decreases |s|
  {
    EncodeAllEncoded(Decode(s));
    if Encoded(s) && s != [] {
      if s[0] == PERCENT {
        EscapeBack(s);
        EncodedIffRoundTrip(s[3..]);
      } else {
        EncodedIffRoundTrip(s[1..]);
        assert s == [s[0]] + s[1..];
      }
    }
  }

  lemma {:induction false} EscapeBack(s: Bytes)
    requires Encoded(s) && s != [] && s[0] == PERCENT
    ensures Decode(s) == [HexValue(s[1]) * 16 + HexValue(s[2])] + Decode(s[3..])
    ensures EncodeByte(HexValue(s[1]) * 16 + HexValue(s[2])) + s[3..] == s
  {
    var hi, lo := HexValue(s[1]), HexValue(s[2]);
    assert (hi * 16 + lo) / 16 == hi && (hi * 16 + lo) % 16 == lo;
    assert HexDigit(hi) == s[1] && HexDigit(lo) == s[2];
    assert s == [s[0], s[1], s[2]] + s[3..];
  }

  lemma {:induction false} EncodedIsClean(s: Bytes)
    ensures AMPERSAND !in EncodeAll(s)
  {
    if s != [] {
      EncodedIsClean(s[1..]);
    }
  }

  // ----- whole bodies -----

  /** Parsing splits at every '&', wherever it comes from. */
  lemma {:induction false} ParseAppend(x: Bytes, y: Bytes)
    ensures ParseForm(x + ([AMPERSAND] + y)) == ParseForm(x) + ParseForm(y)
    decreases |x|
  {
    SplitSizes(x, AMPERSAND);
    match SplitFirst(x, AMPERSAND)
    case None =>
      SplitAt(x, AMPERSAND, y);
    case Some((a, b)) =>
      assert x + ([AMPERSAND] + y) == a + ([AMPERSAND] + (b + ([AMPERSAND] + y)));
      SplitAt(a, AMPERSAND, b + ([AMPERSAND] + y));
      ParseAppend(b, y);
      Assoc(ParsePiece(a), ParseForm(b), ParseForm(y));
  }

  lemma {:induction false} BodyParts(params: seq<Param>)
    requires params != []
    ensures ParseForm(Body(params)) == ParseForm(Pair(params[0])) + ParseForm(Body(params[1..]))
  {
    if |params| > 1 {
      ParseAppend(Pair(params[0]), Body(params[1..]));
    } else {
      assert Body(params[1..]) == [];
      assert ParseForm([]) == [];
    }
  }

  /** A key that a parser reads back as written. */
  predicate PlainKey(k: Bytes) {
    AMPERSAND !in k && EQUALS !in k && PLUS !in k && NoEscape(k)
  }

  predicate NoEscape(k: Bytes) {
    k == [] || (!EscapeAt(k) && NoEscape(k[1..]))
  }

  lemma {:induction false} DecodeShrinks(k: Bytes)
    ensures |Decode(k)| <= |k|
    ensures Decode(k) == k <==> PLUS !in k && NoEscape(k)
    ensures !NoEscape(k) ==> |Decode(k)| < |k|
    decreases |k|
  {
    if k != [] {
      assert k == [k[0]] + k[1..];
      DecodeShrinks(k[1..]);
      if EscapeAt(k) {
        DecodeShrinks(k[3..]);
      }
    }
  }

  lemma {:induction false} PlainPair(p: Param)
    requires PlainKey(p.key)
    ensures ParseForm(Pair(p)) == [p]
  {
    EncodedIsClean(p.value);
    SplitSizes(Pair(p), AMPERSAND);
    SplitAt(p.key, EQUALS, EncodeAll(p.value));
    DecodeShrinks(p.key);
    DecodeEncodes(p.value);
  }

  lemma {:induction false} OnePiece(s: Bytes)
    requires AMPERSAND !in s
    ensures ParseForm(s) == ParsePiece(s)
  {
    SplitSizes(s, AMPERSAND);
  }

  lemma {:induction false} FirstPiece(a: Bytes, rest: Bytes)
    requires AMPERSAND !in a
    ensures ParseForm(a + ([AMPERSAND] + rest)) == ParsePiece(a) + ParseForm(rest)
  {
    SplitAt(a, AMPERSAND, rest);
  }

  lemma {:induction false} PieceNames(a: Bytes)
    ensures forall i :: 0 <= i < |ParsePiece(a)| ==> |ParsePiece(a)[i].key| <= |a|
  {
    DecodeShrinks(a);
    SplitSizes(a, EQUALS);
    if SplitFirst(a, EQUALS).Some? {
      DecodeShrinks(SplitFirst(a, EQUALS).value.0);
    }
  }

  /** Whatever the key, the pair yields at least one parameter, and no name longer than the key. */
  lemma {:induction false} PairYields(k: Bytes, value: Bytes)
    ensures var r := ParseForm(k + ([EQUALS] + EncodeAll(value)));
            r != [] && forall i :: 0 <= i < |r| ==> |r[i].key| <= |k|
    decreases |k|
  {
    var e := [EQUALS] + EncodeAll(value);
    EncodedIsClean(value);
    SplitSizes(k, AMPERSAND);
    match SplitFirst(k, AMPERSAND)
    case None =>
      OnePiece(k + e);
      NameIsShort(k, EncodeAll(value));
    case Some((a, b)) =>
      Regrouped(a, b, e);
      FirstPiece(a, b + e);
      PairYields(b, value);
      PieceNames(a);
  }

  lemma {:induction false} Regrouped(a: Bytes, b: Bytes, e: Bytes)
    ensures (a + ([AMPERSAND] + b)) + e == a + ([AMPERSAND] + (b + e))
  {
  }

  lemma {:induction false} NameIsShort(k: Bytes, v: Bytes)
    ensures var r := ParsePiece(k + ([EQUALS] + v));
            && |r| == 1 && |r[0].key| <= |k|
            && (EQUALS in k ==> |r[0].key| < |k|)
            && (EQUALS !in k ==> r[0].key == Decode(k))
  {
    var s := k + ([EQUALS] + v);
    SplitSizes(k, EQUALS);
    match SplitFirst(k, EQUALS)
    case None =>
      SplitAt(k, EQUALS, v);
      DecodeShrinks(k);
    case Some((a, b)) =>
      assert s == a + ([EQUALS] + (b + ([EQUALS] + v)));
      SplitAt(a, EQUALS, b + ([EQUALS] + v));
      DecodeShrinks(a);
  }

  lemma {:induction false} OnlyPlainPairs(p: Param)
    requires ParseForm(Pair(p)) == [p]
    ensures PlainKey(p.key)
  {
    var e := [EQUALS] + EncodeAll(p.value);
    EncodedIsClean(p.value);
    SplitSizes(p.key, AMPERSAND);
    match SplitFirst(p.key, AMPERSAND)
    case None =>
      OnePiece(p.key + e);
      NameIsShort(p.key, EncodeAll(p.value));
      DecodeShrinks(p.key);
    case Some((a, b)) =>
      Regrouped(a, b, e);
      FirstPiece(a, b + e);
      PairYields(b, p.value);
      LastIsShort(ParsePiece(a), ParseForm(b + e), p);
  }

  lemma {:induction false} LastIsShort(x: seq<Param>, y: seq<Param>, p: Param)
    requires x + y == [p] && y != []
    ensures y[|y| - 1] == p
  {
    assert (x + y)[|x| + |y| - 1] == y[|y| - 1];
  }

  /** A body parses back to its parameters, values of any bytes, exactly when every key is plain. */
  lemma {:induction false} BodyRoundTrip(params: seq<Param>)
    ensures ParseForm(Body(params)) == params <==> forall p :: p in params ==> PlainKey(p.key)
    ensures |ParseForm(Body(params))| >= |params|
    decreases |params|
  {
    if params != [] {
      var p, rest := params[0], params[1..];
      assert params == [p] + rest;
      BodyParts(params);
      BodyRoundTrip(rest);
      PairYields(p.key, p.value);
      var x, y := ParseForm(Pair(p)), ParseForm(Body(rest));
      if x + y == params {
        assert |x| == 1;
        assert x == [p] && y == rest by {
          assert (x + y)[..1] == x && (x + y)[1..] == y;
        }
        OnlyPlainPairs(p);
      }
      if PlainKey(p.key) {
        PlainPair(p);
      }
    }
  }

  /** Keys of unreserved characters, such as those of every AWS action, are plain. */
  lemma {:induction false} UnreservedIsPlain(k: Bytes)
    requires forall b :: b in k ==> Unreserved(b)
    ensures PlainKey(k)
  {
    if k != [] {
      assert k == [k[0]] + k[1..];
      assert k[0] in k;
      UnreservedIsPlain(k[1..]);
    }
  }
}
