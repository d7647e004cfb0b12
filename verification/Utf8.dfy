/** UTF-8 as section 3 of RFC 3629 defines it, and what happens when a byte stream is decoded chunk by chunk.
    `std::str::from_utf8` accepts exactly the sequences this decoder accepts. */
module Utf8 {
  import opened Prelude
  import opened Sequences

  type Byte = n: int | 0 <= n < 256

  datatype Scalar = Malformed | Scalar(c: char, width: nat)

  predicate IsContinuation(b: Byte) {
    0x80 <= b < 0xC0
  }

  // The six payload bits of a continuation byte.
  function Payload(b: Byte): (bits: int)
    ensures IsContinuation(b) ==> 0 <= bits < 64
  {
    b as int - 0x80
  }

  // The scalar value at the front of `b`, by the table of well-formed byte sequences.
  function First(b: seq<Byte>): (r: Scalar)
    requires b != []
    ensures r.Scalar? ==> 1 <= r.width <= |b|
  {
    var b0: int := b[0];
    if b0 < 0x80 then
      Scalar(b0 as char, 1)
    else if 0xC2 <= b0 < 0xE0 && |b| >= 2 && IsContinuation(b[1]) then
      Scalar(((b0 - 0xC0) * 64 + Payload(b[1])) as char, 2)
    else if 0xE0 <= b0 < 0xF0 && |b| >= 3 && IsContinuation(b[1]) && IsContinuation(b[2])
            && (b0 == 0xE0 ==> 0xA0 <= b[1]) && (b0 == 0xED ==> b[1] < 0xA0) then
      Scalar(((b0 - 0xE0) * 4096 + Payload(b[1]) * 64 + Payload(b[2])) as char, 3)
    else if 0xF0 <= b0 < 0xF5 && |b| >= 4
            && IsContinuation(b[1]) && IsContinuation(b[2]) && IsContinuation(b[3])
            && (b0 == 0xF0 ==> 0x90 <= b[1]) && (b0 == 0xF4 ==> b[1] < 0x90) then
      Scalar(((b0 - 0xF0) * 262144 + Payload(b[1]) * 4096 + Payload(b[2]) * 64 + Payload(b[3])) as char, 4)
    else
      Malformed
  }

  function Decode(b: seq<Byte>): Option<string> {
    if b == [] then Some("")
    else
      match First(b)
      case Malformed => None
      case Scalar(c, w) =>
        match Decode(b[w..])
        case None => None
        case Some(rest) => Some([c] + rest)
  }

  function EncodeChar(c: char): (b: seq<Byte>)
    ensures b != []
  {
    var n := c as int;
    if n < 0x80 then [n]
    else if n < 0x800 then [0xC0 + n / 64, 0x80 + n % 64]
    else if n < 0x10000 then [0xE0 + n / 4096, 0x80 + n / 64 % 64, 0x80 + n % 64]
    else [0xF0 + n / 262144, 0x80 + n / 4096 % 64, 0x80 + n / 64 % 64, 0x80 + n % 64]
  }

  function Encode(s: string): seq<Byte> {
    if s == [] then [] else EncodeChar(s[0]) + Encode(s[1..])
  }

  lemma FirstOfEncoded(c: char, rest: seq<Byte>)
    ensures First(EncodeChar(c) + rest) == Scalar(c, |EncodeChar(c)|)
  {
    var n := c as int;
    assert n == n / 64 * 64 + n % 64;
    assert n / 64 == n / 4096 * 64 + n / 64 % 64;
    assert n / 4096 == n / 262144 * 64 + n / 4096 % 64;
  }

  lemma Radix64(q: int, r: int)
    requires 0 <= r < 64
    ensures (q * 64 + r) / 64 == q && (q * 64 + r) % 64 == r
  {}

  lemma EncodeOfFirst(b: seq<Byte>)
    requires b != [] && First(b).Scalar?
    ensures EncodeChar(First(b).c) == b[..First(b).width]
  {
    var w := First(b).width;
    if w == 2 {
      Radix64(b[0] as int - 0xC0, Payload(b[1]));
    } else if w == 3 {
      var high := (b[0] as int - 0xE0) * 64 + Payload(b[1]);
      Radix64(b[0] as int - 0xE0, Payload(b[1]));
      Radix64(high, Payload(b[2]));
    } else if w == 4 {
      EncodeOfFirstWide(b);
    }
  }

  lemma EncodeOfFirstWide(b: seq<Byte>)
    requires b != [] && First(b).Scalar? && First(b).width == 4
    ensures EncodeChar(First(b).c) == b[..4]
  {
    var top := b[0] as int - 0xF0;
    var high := top * 64 + Payload(b[1]);
    var mid := high * 64 + Payload(b[2]);
    Radix64(top, Payload(b[1]));
    Radix64(high, Payload(b[2]));
    Radix64(mid, Payload(b[3]));
    assert First(b).c as int == mid * 64 + Payload(b[3]);
  }

  /** Every string survives encoding and decoding ... */
  lemma {:induction false} DecodeEncode(s: string)
    ensures Decode(Encode(s)) == Some(s)
  {
    if s != [] {
      FirstOfEncoded(s[0], Encode(s[1..]));
      assert Encode(s)[|EncodeChar(s[0])|..] == Encode(s[1..]);
      assert s == [s[0]] + s[1..];
      DecodeEncode(s[1..]);
    }
  }

  lemma EncodeCons(c: char, rest: string)
    ensures Encode([c] + rest) == EncodeChar(c) + Encode(rest)
  {
    assert ([c] + rest)[1..] == rest;
  }

  /** ... and the decoder accepts nothing but encodings. */
  lemma {:induction false} EncodeDecode(b: seq<Byte>)
    requires Decode(b).Some?
    ensures Encode(Decode(b).value) == b
    decreases |b|
  {
    if b != [] {
      var w := First(b).width;
      EncodeOfFirst(b);
      EncodeDecode(b[w..]);
      EncodeCons(First(b).c, Decode(b[w..]).value);
      Halves(b, w);
    }
  }

  lemma {:induction false} EncodeConcat(s: string, t: string)
    ensures Encode(s + t) == Encode(s) + Encode(t)
  {
    if s == [] {
      assert s + t == t;
    } else {
      assert (s + t)[1..] == s[1..] + t;
      EncodeConcat(s[1..], t);
    }
  }

  // The bytes of a chunked stream.
  function Flatten(chunks: seq<seq<Byte>>): seq<Byte> {
    if chunks == [] then [] else chunks[0] + Flatten(chunks[1..])
  }

  // The text that chunk-by-chunk decoding delivers: a chunk that is not valid on its own is skipped whole.
  function Delivered(chunks: seq<seq<Byte>>): string {
    if chunks == [] then ""
    else Decode(chunks[0]).GetOr("") + Delivered(chunks[1..])
  }

  predicate EachValid(chunks: seq<seq<Byte>>) {
    forall i :: 0 <= i < |chunks| ==> Decode(chunks[i]).Some?
  }

  lemma {:induction false} FlattenAppend(chunks: seq<seq<Byte>>, last: seq<Byte>)
    ensures Flatten(chunks + [last]) == Flatten(chunks) + last
  {
    if chunks == [] {
      assert [last][1..] == [];
    } else {
      assert (chunks + [last])[1..] == chunks[1..] + [last];
      FlattenAppend(chunks[1..], last);
      Associative(chunks[0], Flatten(chunks[1..]), last);
    }
  }

  lemma {:induction false} DeliveredAppend(chunks: seq<seq<Byte>>, last: seq<Byte>)
    ensures Delivered(chunks + [last]) == Delivered(chunks) + Decode(last).GetOr("")
  {
    if chunks == [] {
      assert [last][1..] == [];
    } else {
      assert (chunks + [last])[1..] == chunks[1..] + [last];
      DeliveredAppend(chunks[1..], last);
      Associative(Decode(chunks[0]).GetOr(""), Delivered(chunks[1..]), Decode(last).GetOr(""));
    }
  }

  // Delivered text never encodes to more bytes than arrived, and to as many only if no chunk was skipped.
  lemma {:induction false} DeliveredEncodes(chunks: seq<seq<Byte>>)
    ensures |Encode(Delivered(chunks))| <= |Flatten(chunks)|
    ensures EachValid(chunks) ==> Encode(Delivered(chunks)) == Flatten(chunks)
    ensures !EachValid(chunks) ==> |Encode(Delivered(chunks))| < |Flatten(chunks)|
  {
    if chunks != [] {
      var first := Decode(chunks[0]);
      DeliveredEncodes(chunks[1..]);
      EncodeConcat(first.GetOr(""), Delivered(chunks[1..]));
      if first.Some? {
        EncodeDecode(chunks[0]);
        assert EachValid(chunks) <==> EachValid(chunks[1..]) by {
          if EachValid(chunks[1..]) {
            forall i | 0 <= i < |chunks| ensures Decode(chunks[i]).Some? {
              assert i > 0 ==> chunks[i] == chunks[1..][i - 1];
            }
          }
        }
      } else {
        assert chunks[0] != [];
      }
    }
  }

  /** Decoding chunk by chunk yields the decoding of the whole stream exactly when every chunk is valid alone.
      The condition can be checked on each chunk as it arrives: it is the guard of the skipping branch. */
  lemma ChunkedDecodingExact(chunks: seq<seq<Byte>>)
    ensures Decode(Flatten(chunks)) == Some(Delivered(chunks)) <==> EachValid(chunks)
  {
    DeliveredEncodes(chunks);
    if EachValid(chunks) {
      DecodeEncode(Delivered(chunks));
    } else if Decode(Flatten(chunks)) == Some(Delivered(chunks)) {
      EncodeDecode(Flatten(chunks));
    }
  }

  /** The failing family is not empty: a two-byte character cut by a read boundary is lost on both sides. */
  lemma SplitCharacterIsLost()
    ensures Decode([0xC3, 0xA9]) == Some("\U{00E9}")
    ensures Delivered([[0xC3], [0xA9]]) == ""
  {
    var whole: seq<Byte> := [0xC3, 0xA9];
    DecodeEncode("\U{00E9}");
    assert Encode("\U{00E9}") == EncodeChar('\U{00E9}') == whole;
    var chunks: seq<seq<Byte>> := [[0xC3], [0xA9]];
    assert chunks[1..] == [[0xA9]] && chunks[1..][1..] == [];
    assert First([0xC3]).Malformed? && First([0xA9]).Malformed?;
  }
}
