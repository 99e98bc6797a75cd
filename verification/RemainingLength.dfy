/**
 The variable-length integer in front of every MQTT packet (section 2.2.3 of MQTT 3.1.1): seven bits a
 byte, low bits first, the top bit saying that more follows, at most four bytes.
 */
module RemainingLength {
  import opened Basics

  type Byte = n: nat | n < 256

  const LIMIT: nat := 128 * 128 * 128 * 128

  function Encode(n: nat): (r: seq<Byte>)
    ensures r != []
  {
    if n < 128 then [n] else [n % 128 + 128] + Encode(n / 128)
  }

  datatype Decoded = Decoded(value: nat, rest: seq<Byte>)

  function DecodeFrom(s: seq<Byte>, multiplier: nat, value: nat): Option<Decoded>
    decreases |s|
  {
    if s == [] then None else
    var v := value + s[0] % 128 * multiplier;
    if s[0] < 128 then Some(Decoded(v, s[1..]))
    else if multiplier * 128 > 128 * 128 * 128 then None
    else DecodeFrom(s[1..], multiplier * 128, v)
  }

  function Decode(s: seq<Byte>): Option<Decoded> {
    DecodeFrom(s, 1, 0)
  }

  method EncodeRemainingLength(n: nat) returns (header: seq<Byte>)
    ensures header == Encode(n)
  {
    header := [];
    var remaining := n;
    while true
      invariant header + Encode(remaining) == Encode(n)
      decreases remaining
    {
      var byte: Byte := remaining % 128;
      remaining := remaining / 128;
      if remaining > 0 {
        byte := byte + 128;
      }
      header := header + [byte];
      if remaining == 0 {
        break;
      }
    }
  }

  method DecodeRemainingLength(stream: seq<Byte>) returns (r: Option<Decoded>)
    ensures r == Decode(stream)
  {
    var multiplier: nat := 1;
    var value: nat := 0;
    var i := 0;
    while true
      invariant 0 <= i <= |stream|
      invariant DecodeFrom(stream[i..], multiplier, value) == Decode(stream)
      decreases |stream| - i
    {
      if i == |stream| {
        return None;
      }
      var byte: nat := stream[i];
      i := i + 1;
      value := value + byte % 128 * multiplier;
      if byte < 128 {
        break;
      }
      multiplier := multiplier * 128;
      if multiplier > 128 * 128 * 128 {
        return None;
      }
    }
    r := Some(Decoded(value, stream[i..]));
  }

  /** 128 to the power `k`, for the positions a length can use. */
  function Place(k: nat): nat
    requires k <= 4
  {
    if k == 0 then 1 else if k == 1 then 128 else if k == 2 then 16_384 else if k == 3 then 2_097_152 else LIMIT
  }

  lemma FirstByte(n: nat, rest: seq<Byte>)
    ensures var s := Encode(n) + rest;
            && s[0] % 128 == n % 128 && (s[0] < 128 <==> n < 128)
            && s[1..] == (if n < 128 then rest else Encode(n / 128) + rest)
  {
  }

  lemma {:induction false} DecodeEncoded(n: nat, rest: seq<Byte>, k: nat, value: nat)
    requires k <= 3
    ensures DecodeFrom(Encode(n) + rest, Place(k), value) ==
            if n < Place(4 - k) then Some(Decoded(value + n * Place(k), rest)) else None
    decreases n
  {
    var s := Encode(n) + rest;
    FirstByte(n, rest);
    if n >= 128 {
      assert Place(k) * 128 > 128 * 128 * 128 <==> k == 3;
      if k < 3 {
        DecodeEncoded(n / 128, rest, k + 1, value + n % 128 * Place(k));
        Regroup(n % 128, n / 128, k);
      }
    }
  }

  /** Decoding an encoded length gives it back and consumes nothing more, up to the limit and never beyond. */
  lemma RoundTrip(n: nat, rest: seq<Byte>)
    ensures Decode(Encode(n) + rest) == if n < LIMIT then Some(Decoded(n, rest)) else None
  {
    DecodeEncoded(n, rest, 0, 0);
  }

  /** Every byte announces another, except the last. */
  predicate Delimited(s: seq<Byte>) {
    s != [] && if s[0] < 128 then |s| == 1 else Delimited(s[1..])
  }

  /** The number that the low seven bits spell, low bytes first. */
  function Spelled(s: seq<Byte>): nat {
    if s == [] then 0 else s[0] % 128 + 128 * Spelled(s[1..])
  }

  /** A decoder reads a delimited prefix of at most four bytes and returns what it spells. */
  lemma {:induction false} DecodeReads(s: seq<Byte>, k: nat, value: nat)
    requires k <= 3 && DecodeFrom(s, Place(k), value).Some?
    ensures var d := DecodeFrom(s, Place(k), value).value;
            var used := |s| - |d.rest|;
            && 1 <= used <= 4 - k && s[used..] == d.rest
            && Delimited(s[..used]) && Spelled(s[..used]) < Place(4 - k)
            && d.value == value + Spelled(s[..used]) * Place(k)
    decreases |s|
  {
    var d := DecodeFrom(s, Place(k), value).value;
    var used := |s| - |d.rest|;
    if s[0] < 128 {
      assert s[..1][1..] == [] && Spelled([]) == 0;
    } else {
      var tail := s[1..];
      DecodeReads(tail, k + 1, value + s[0] % 128 * Place(k));
      assert s[..used][1..] == tail[..used - 1];
      Regroup(s[0] % 128, Spelled(tail[..used - 1]), k);
    }
  }

  /** Conversely a delimited prefix of at most four bytes is read, whatever follows it. */
  lemma {:induction false} DelimitedIsRead(s: seq<Byte>, used: nat, k: nat, value: nat)
    requires k <= 3 && 1 <= used <= |s| && used <= 4 - k && Delimited(s[..used])
    ensures DecodeFrom(s, Place(k), value).Some?
    decreases used
  {
    if s[0] >= 128 {
      assert s[..used][1..] == s[1..][..used - 1];
      assert used > 1;
      DelimitedIsRead(s[1..], used - 1, k + 1, value + s[0] % 128 * Place(k));
    }
  }

  /** The decoder answers exactly when one of the first four bytes ends the length. */
  lemma DecodesIff(s: seq<Byte>)
    ensures Decode(s).Some? <==> exists used :: 1 <= used <= |s| && used <= 4 && Delimited(s[..used])
  {
    if Decode(s).Some? {
      DecodeReads(s, 0, 0);
    }
    if used :| 1 <= used <= |s| && used <= 4 && Delimited(s[..used]) {
      DelimitedIsRead(s, used, 0, 0);
    }
  }

  lemma Regroup(digit: nat, high: nat, k: nat)
    requires k < 3 && digit < 128
    ensures Place(k + 1) == Place(k) * 128
    ensures digit * Place(k) + high * Place(k + 1) == (digit + 128 * high) * Place(k)
    ensures digit + 128 * high < Place(4 - k) <==> high < Place(3 - k)
  {
  }

  /** Only zero itself is encoded with a final zero byte. */
  lemma {:induction false} LastByteCounts(n: nat)
    requires n > 0
    ensures Encode(n)[|Encode(n)| - 1] != 0
  {
    if n >= 128 {
      LastByteCounts(n / 128);
      assert Encode(n)[|Encode(n)| - 1] == Encode(n / 128)[|Encode(n / 128)| - 1];
    }
  }

  /** The bytes that spell a number are its encoding exactly when they do not end in a superfluous zero. */
  lemma {:induction false} SpelledIsCanonicalIff(s: seq<Byte>)
    requires Delimited(s)
    ensures |Encode(Spelled(s))| <= |s|
    ensures s == Encode(Spelled(s)) <==> |s| == 1 || s[|s| - 1] != 0
  {
    if s[0] < 128 {
      assert Spelled(s) == s[0] && s == [s[0]];
    } else {
      var tail, n := s[1..], Spelled(s);
      var m := Spelled(tail);
      SpelledIsCanonicalIff(tail);
      assert s == [s[0]] + tail && n / 128 == m && n % 128 + 128 == s[0];
      if m == 0 {
        assert |Encode(n)| == 1 && Encode(m) == [0];
      } else {
        LastByteCounts(m);
        assert Encode(n) == [s[0]] + Encode(m) && Encode(n)[1..] == Encode(m);
      }
    }
  }

  /**
   Whatever bytes arrive, a decoded length is below the limit and its own encoding is the shortest; the
   bytes read are that encoding exactly when they do not end in a superfluous zero.
   */
  lemma DecodedIsCanonicalIff(s: seq<Byte>)
    requires Decode(s).Some?
    ensures var d := Decode(s).value;
            var used := |s| - |d.rest|;
            && 1 <= used <= 4 && s[used..] == d.rest && d.value < LIMIT
            && |Encode(d.value)| <= used
            && (s[..used] == Encode(d.value) <==> used == 1 || s[used - 1] != 0)
  {
    DecodeReads(s, 0, 0);
    SpelledIsCanonicalIff(s[..|s| - |Decode(s).value.rest|]);
  }
}
