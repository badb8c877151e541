/** decodeVLQs, and the Base64 VLQ encoding of ECMA-426 that it must undo. */
module Vlq {
  import opened Basics
  import opened Options
  import opened Int64
  import opened Text

  const UPPER := "ABCDEFGHIJKLMNOPQRSTUVWXYZ"
  const LOWER := "abcdefghijklmnopqrstuvwxyz"
  const DECIMALS := "0123456789"
  const B64 := UPPER + LOWER + DECIMALS + "+/"

  type Sextet = d: int | 0 <= d < 64

  function Digit(c: char): (d: int)
    ensures -1 <= d < 64
  {
    IndexOf(B64, c)
  }

  function DigitsOf(s: string): (ds: seq<int>)
    ensures |ds| == |s|
    ensures forall i :: 0 <= i < |s| ==> ds[i] == Digit(s[i])
  {
    seq(|s|, i requires 0 <= i < |s| => Digit(s[i]))
  }

  /* ---- the decoder ---- */

  datatype Decoding = Decoding(out: seq<int>, result: int, shift: nat)

  // A finished number: its low bit is the sign.
  function Signed(result: int): int {
    if result % 2 == 1 then Wrap(-(result / 2)) else result / 2
  }

  function Take(st: Decoding, d: Sextet): Decoding
  {
    var result := Wrap(st.result + Shl(d % 32, st.shift));
    if d < 32 then Decoding(st.out + [Signed(result)], 0, 0)
    else Decoding(st.out, result, st.shift + 5)
  }

  // A digit of -1 stands for a character outside the alphabet.
  function DecodeFrom(ds: seq<int>, st: Decoding): Option<seq<int>>
    decreases |ds|
  {
    if ds == [] then if st.shift != 0 then None else Some(st.out)
    else if !(0 <= ds[0] < 64) then None
    else DecodeFrom(ds[1..], Take(st, ds[0]))
  }

  function Decode(s: string): Option<seq<int>> {
    DecodeFrom(DigitsOf(s), Decoding([], 0, 0))
  }

  method DecodeVlqs(s: string) returns (out: Option<seq<int>>)
    ensures out == Decode(s)
  {
    var vals: seq<int> := [];
    var result, shift := 0, 0;
    ghost var ds := DigitsOf(s);
    for i := 0 to |s|
      invariant shift >= 0
      invariant Decode(s) == DecodeFrom(ds[i..], Decoding(vals, result, shift))
    {
      var d := Digit(s[i]);
      assert ds[i..][0] == d && ds[i..][1..] == ds[i + 1..];
      if d < 0 {
        return None;
      }
      result := Wrap(result + Shl(d % 32, shift));
      shift := shift + 5;
      if d < 32 {
        var neg := result % 2 == 1;
        result := result / 2;
        if neg {
          result := Wrap(-result);
        }
        vals := vals + [result];
        result, shift := 0, 0;
      }
    }
    if shift != 0 {
      return None;
    }
    return Some(vals);
  }

  /* ---- the encoder of ECMA-426, section "Base64 VLQ" ---- */

  function WithSign(v: int): nat {
    if v < 0 then -v * 2 + 1 else v * 2
  }

  // Five bits a digit, least significant first; bit 5 says more follow.
  function Digits(n: nat): (ds: seq<Sextet>)
    ensures ds != []
  {
    if n < 32 then [n] else [32 + n % 32] + Digits(n / 32)
  }

  function DigitsAll(vals: seq<int>): (ds: seq<Sextet>)
    ensures vals != [] ==> ds != []
  {
    if vals == [] then [] else Digits(WithSign(vals[0])) + DigitsAll(vals[1..])
  }

  function Chars(ds: seq<Sextet>): (s: string)
    ensures |s| == |ds|
    ensures forall i :: 0 <= i < |s| ==> s[i] == B64[ds[i]]
  {
    seq(|ds|, i requires 0 <= i < |ds| => B64[ds[i]])
  }

  function EncodeVlqs(vals: seq<int>): (s: string) {
    Chars(DigitsAll(vals))
  }

  /* ---- the decoder undoes the encoder ---- */

  lemma Alphabet(i: nat)
    requires i < 64
    ensures B64[i] as int == if i < 26 then 65 + i else if i < 52 then 71 + i
      else if i < 62 then i - 4 else if i == 62 then 43 else 47
  {
    if i < 26 {
      assert B64[i] == UPPER[i];
    } else if i < 52 {
      assert B64[i] == LOWER[i - 26];
    } else if i < 62 {
      assert B64[i] == DECIMALS[i - 52];
    } else {
      assert B64[i] == "+/"[i - 62];
    }
  }

  lemma {:induction false} DigitOfChar(d: nat)
    requires d < 64
    ensures Digit(B64[d]) == d
    ensures B64[d] != ',' && B64[d] != ';'
  {
    var i := IndexOf(B64, B64[d]);
    Alphabet(d);
    if i >= 0 {
      Alphabet(i);
    }
  }

  lemma {:induction false} CharsRoundTrip(ds: seq<Sextet>)
    ensures DigitsOf(Chars(ds)) == ds
    ensures ',' !in Chars(ds) && ';' !in Chars(ds)
  {
    forall i | 0 <= i < |ds|
      ensures Digit(Chars(ds)[i]) == ds[i] && Chars(ds)[i] != ',' && Chars(ds)[i] != ';'
    {
      DigitOfChar(ds[i]);
    }
  }

  // acc with n added from bit `shift` on.
  function Plus(acc: int, n: int, shift: nat): int {
    acc + n * Pow2(shift)
  }

  lemma DigitsSplit(n: nat, rest: seq<int>)
    requires n >= 32
    ensures Digits(n) + rest == [32 + n % 32] + (Digits(n / 32) + rest) && (32 + n % 32) % 32 == n % 32
  {
    Regroup([32 + n % 32], Digits(n / 32), rest);
  }

  lemma {:induction false} TakesDigits(n: nat, rest: seq<int>, out: seq<int>, acc: int, shift: nat)
    ensures DecodeFrom(Digits(n) + rest, Decoding(out, Wrap(acc), shift)) ==
      DecodeFrom(rest, Decoding(out + [Signed(Wrap(Plus(acc, n, shift)))], 0, 0))
    decreases n
  {
    if n < 32 {
      TakesLast(n, rest, out, acc, shift);
    } else {
      DigitsSplit(n, rest);
      TakesMore(32 + n % 32, Digits(n / 32) + rest, out, acc, shift);
      TakesDigits(n / 32, rest, out, Plus(acc, n % 32, shift), shift + 5);
      NextDigit(acc, n, shift);
    }
  }

  lemma TakesLast(d: Sextet, rest: seq<int>, out: seq<int>, acc: int, shift: nat)
    requires d < 32
    ensures DecodeFrom([d] + rest, Decoding(out, Wrap(acc), shift)) ==
      DecodeFrom(rest, Decoding(out + [Signed(Wrap(Plus(acc, d, shift)))], 0, 0))
  {
    TakesOne(acc, d, shift);
    assert ([d] + rest)[1..] == rest;
  }

  lemma {:induction false} TakesMore(d: Sextet, rest: seq<int>, out: seq<int>, acc: int, shift: nat)
    requires d >= 32
    ensures DecodeFrom([d] + rest, Decoding(out, Wrap(acc), shift)) ==
      DecodeFrom(rest, Decoding(out, Wrap(Plus(acc, d % 32, shift)), shift + 5))
  {
    TakesOne(acc, d % 32, shift);
    assert ([d] + rest)[1..] == rest;
  }

  lemma TakesOne(acc: int, d: int, shift: nat)
    ensures Wrap(Wrap(acc) + Shl(d, shift)) == Wrap(Plus(acc, d, shift))
  {
    WrapTwice(acc, Shl(d, shift));
    ShlIsProduct(d, shift);
    WrapSum(acc, d * Pow2(shift));
  }

  lemma WrapTwice(x: int, y: int)
    ensures Wrap(Wrap(x) + y) == Wrap(Wrap(x) + Wrap(y))
  {
    WrapSum(Wrap(x), y);
  }

  lemma NextDigit(acc: int, n: nat, shift: nat)
    ensures Plus(acc, n, shift) == Plus(Plus(acc, n % 32, shift), n / 32, shift + 5)
  {
    Pow2Values();
    Pow2Sum(shift, 5);
    Distributes(n % 32, n / 32, Pow2(shift));
  }

  lemma Distributes(r: int, q: int, p: int)
    ensures (q * 32 + r) * p == r * p + q * (p * 32)
  {
  }

  // What the decoder reads for an encoded v.
  function Reads(v: int): int {
    Signed(Wrap(WithSign(v)))
  }

  function AllReads(vals: seq<int>): seq<int> {
    if vals == [] then [] else [Reads(vals[0])] + AllReads(vals[1..])
  }

  lemma {:induction false} DecodesAll(vals: seq<int>, out: seq<int>)
    ensures DecodeFrom(DigitsAll(vals), Decoding(out, 0, 0)) == Some(out + AllReads(vals))
  {
    if vals == [] {
      assert out + AllReads(vals) == out;
    } else {
      DecodesFirst(vals[0], DigitsAll(vals[1..]), out);
      DecodesAll(vals[1..], out + [Reads(vals[0])]);
      assert out + [Reads(vals[0])] + AllReads(vals[1..]) == out + ([Reads(vals[0])] + AllReads(vals[1..]));
    }
  }

  lemma {:induction false} DecodesFirst(v: int, rest: seq<int>, out: seq<int>)
    ensures DecodeFrom(Digits(WithSign(v)) + rest, Decoding(out, 0, 0)) ==
      DecodeFrom(rest, Decoding(out + [Reads(v)], 0, 0))
  {
    TakesDigits(WithSign(v), rest, out, 0, 0);
  }

  // A value of 2^62 or more in magnitude does not survive 64 bits; a smaller
  // one always does.
  lemma ReadsIff(v: int)
    ensures Reads(v) == v <==> -TWO_62 < v < TWO_62
  {
    if v == TWO_62 || v == -TWO_62 {
      ReadsEdge(v);
    } else if -TWO_62 < v < TWO_62 {
      ReadsBelow(v);
    } else {
      SignedIsSmall(Wrap(WithSign(v)));
    }
  }

  lemma ReadsEdge(v: int)
    requires v == TWO_62 || v == -TWO_62
    ensures Reads(v) == -v
  {
    WrapAt(-TWO_63, 1);
    WrapAt(1 - TWO_63, 1);
  }

  lemma ReadsBelow(v: int)
    requires -TWO_62 < v < TWO_62
    ensures Reads(v) == v
  {
  }

  lemma SignedIsSmall(w: int)
    requires -TWO_63 <= w < TWO_63
    ensures -TWO_62 <= Signed(w) <= TWO_62
  {
  }

  lemma {:induction false} AllReadsIff(vals: seq<int>)
    ensures AllReads(vals) == vals <==> forall i :: 0 <= i < |vals| ==> -TWO_62 < vals[i] < TWO_62
  {
    if vals != [] {
      ReadsIff(vals[0]);
      AllReadsIff(vals[1..]);
      assert vals == [vals[0]] + vals[1..];
      assert AllReads(vals)[0] == Reads(vals[0]) && AllReads(vals)[1..] == AllReads(vals[1..]);
    }
  }

  // The round trip, exactly: every value is below 2^62 in magnitude.
  lemma RoundTripIff(vals: seq<int>)
    ensures Decode(EncodeVlqs(vals)) == Some(vals) <==> forall i :: 0 <= i < |vals| ==> -TWO_62 < vals[i] < TWO_62
  {
    CharsRoundTrip(DigitsAll(vals));
    DecodesAll(vals, []);
    AllReadsIff(vals);
    assert [] + AllReads(vals) == AllReads(vals);
  }
}
