/**
 Base32 secrets (packages/auth/src/totp.ts). The reference definition is section
 6 of RFC 4648 without padding: regroup the bit string of the input into
 characters of five bits, the last one filled up with zero bits. The loops use a
 32-bit accumulator that wraps around.
 */
module Base32 {
  import opened Prelude
  import opened Text

  type Byte = n: nat | n < 256

  // ------------------------------------------------------------------ bit strings

  function Pow2(k: nat): (p: nat)
    ensures p >= 1
  {
    if k == 0 then 1 else 2 * Pow2(k - 1)
  }

  /** The low w bits of v, most significant first. */
  function LowBits(v: nat, w: nat): (bs: seq<bool>)
    ensures |bs| == w
  {
    if w == 0 then [] else LowBits(v / 2, w - 1) + [v % 2 == 1]
  }

  /** The number a bit string denotes. */
  function Value(bs: seq<bool>): (v: nat)
    ensures v < Pow2(|bs|)
  {
    if |bs| == 0 then 0 else 2 * Value(bs[..|bs| - 1]) + if bs[|bs| - 1] then 1 else 0
  }

  function Zeros(k: nat): seq<bool> {
    seq(k, _ => false)
  }

  /** The bit string of words of w bits each. */
  function Bits(xs: seq<nat>, w: nat): seq<bool> {
    if |xs| == 0 then [] else Bits(xs[..|xs| - 1], w) + LowBits(xs[|xs| - 1], w)
  }

  lemma {:induction false} ValueOfLowBits(v: nat, w: nat)
    requires v < Pow2(w)
    ensures Value(LowBits(v, w)) == v
  {
    if w > 0 {
      ValueOfLowBits(v / 2, w - 1);
      assert LowBits(v, w)[..w - 1] == LowBits(v / 2, w - 1);
    }
  }

  lemma {:induction false} LowBitsOfValue(bs: seq<bool>)
    ensures LowBits(Value(bs), |bs|) == bs
  {
    if |bs| > 0 {
      var n := |bs| - 1;
      LowBitsOfValue(bs[..n]);
      assert Value(bs) / 2 == Value(bs[..n]);
      assert bs == bs[..n] + [bs[n]];
    }
  }

  // ---------------------------------------------------------------- shifts and masks

  /** v << c, before any wrap-around. */
  function Shl(v: nat, c: nat): nat {
    if c == 0 then v else 2 * Shl(v, c - 1)
  }

  /** v >>> c. */
  function Shr(v: nat, c: nat): nat {
    if c == 0 then v else Shr(v / 2, c - 1)
  }

  /** The low k bits of v: wrap-around to k bits, or a mask of k ones. */
  function Keep(v: nat, k: nat): (r: nat)
    ensures r < Pow2(k)
  {
    if k == 0 then 0 else 2 * Keep(v / 2, k - 1) + v % 2
  }

  lemma Scale(m: int, k: int)
    requires m >= 1
    ensures k >= 1 ==> m * k >= m
    ensures k <= -1 ==> m * k <= -m
  {
  }

  /** Quotient and remainder are unique. */
  lemma DivModIs(x: int, m: int, q: int, r: int)
    requires m >= 1 && 0 <= r < m && x == m * q + r
    ensures x / m == q && x % m == r
  {
    var d := x / m;
    assert m * (d - q) == m * d - m * q;
    Scale(m, d - q);
  }

  /** Halving commutes with dividing by, and reducing modulo, twice as much. */
  lemma Halving(v: nat, m: nat)
    requires m >= 1
    ensures v / 2 / m == v / (2 * m)
    ensures v % (2 * m) == 2 * ((v / 2) % m) + v % 2
  {
    var q, r := v / (2 * m), v % (2 * m);
    var y := m * q;
    assert (2 * m) * q == 2 * y;
    DivModIs(v, 2, y + r / 2, r % 2);
    DivModIs(y + r / 2, m, q, r / 2);
  }

  /** In arithmetic terms: wrapping is the remainder by a power of two and the right shift is the quotient. */
  lemma {:induction false} ShiftsDivide(v: nat, k: nat)
    ensures Keep(v, k) == v % Pow2(k) && Shr(v, k) == v / Pow2(k)
  {
    if k > 0 {
      ShiftsDivide(v / 2, k - 1);
      Halving(v, Pow2(k - 1));
    }
  }

  /** Cutting a number off above the bits that are read changes nothing; this is why the wrap-around is harmless. */
  lemma {:induction false} LowBitsOfKeep(v: nat, k: nat, w: nat)
    requires w <= k
    ensures LowBits(Keep(v, k), w) == LowBits(v, w)
  {
    if w > 0 {
      LowBitsOfKeep(v / 2, k - 1, w - 1);
    }
  }

  /** Shifting left by c and or-ing in c bits appends them. */
  lemma {:induction false} LowBitsShifted(v: nat, b: nat, x: nat, c: nat)
    requires x < Pow2(c)
    ensures LowBits(Shl(v, c) + x, b + c) == LowBits(v, b) + LowBits(x, c)
  {
    if c == 0 {
      assert LowBits(x, c) == [];
    } else {
      LowBitsShifted(v, b, x / 2, c - 1);
      assert (Shl(v, c) + x) / 2 == Shl(v, c - 1) + x / 2;
      assert LowBits(v, b) + LowBits(x, c) == LowBits(v, b) + LowBits(x / 2, c - 1) + [x % 2 == 1];
    }
  }

  /** Shifting right by c keeps the upper bits. */
  lemma {:induction false} LowBitsSplit(v: nat, b: nat, c: nat)
    ensures LowBits(v, b + c) == LowBits(Shr(v, c), b) + LowBits(v, c)
    decreases c
  {
    if c == 0 {
      assert LowBits(v, c) == [];
    } else {
      LowBitsSplit(v / 2, b, c - 1);
      assert LowBits(v, b + c) == LowBits(v / 2, b + (c - 1)) + [v % 2 == 1];
      assert LowBits(v, c) == LowBits(v / 2, c - 1) + [v % 2 == 1];
    }
  }

  lemma {:induction false} LowBitsOfZero(k: nat)
    ensures LowBits(0, k) == Zeros(k)
  {
    if k > 0 {
      LowBitsOfZero(k - 1);
      assert Zeros(k) == Zeros(k - 1) + [false];
    }
  }

  lemma BitsAppended(xs: seq<nat>, x: nat, w: nat)
    ensures Bits(xs + [x], w) == Bits(xs, w) + LowBits(x, w)
  {
    assert (xs + [x])[..|xs|] == xs;
  }

  lemma {:induction false} BitsCons(x: nat, xs: seq<nat>, w: nat)
    ensures Bits([x] + xs, w) == LowBits(x, w) + Bits(xs, w)
  {
    var all := [x] + xs;
    if |xs| == 0 {
      assert all[..0] == [] && all == [x];
    } else {
      var n := |xs| - 1;
      assert all[..n + 1] == [x] + xs[..n];
      BitsCons(x, xs[..n], w);
      assert LowBits(x, w) + (Bits(xs[..n], w) + LowBits(xs[n], w)) == LowBits(x, w) + Bits(xs[..n], w) + LowBits(xs[n], w);
    }
  }

  lemma PowersOfTwo()
    ensures Pow2(5) == 32 && Pow2(8) == 256
  {
    assert Pow2(1) == 2 && Pow2(2) == 4 && Pow2(3) == 8 && Pow2(4) == 16;
    assert Pow2(6) == 64 && Pow2(7) == 128;
  }

  // ------------------------------------------------------------ reference definition

  const ALPHABET := "ABCDEFGHIJKLMNOPQRSTUVWXYZ234567"

  /** Regroups bits into fives, the last group filled up with zeros. */
  function Groups(bs: seq<bool>): (gs: seq<nat>)
    ensures forall i | 0 <= i < |gs| :: gs[i] < Pow2(5)
  {
    if |bs| == 0 then []
    else if |bs| < 5 then [Value(bs + Zeros(5 - |bs|))]
    else [Value(bs[..5])] + Groups(bs[5..])
  }

  /** Regroups bits into octets and drops what is left over. */
  function Octets(bs: seq<bool>): (os: seq<nat>)
    ensures forall i | 0 <= i < |os| :: os[i] < Pow2(8)
  {
    if |bs| < 8 then [] else [Value(bs[..8])] + Octets(bs[8..])
  }

  predicate IsLetter(c: char) {
    'A' <= c <= 'Z' || '2' <= c <= '7'
  }

  function Letter(g: nat): (c: char)
    requires g < 32
    ensures IsLetter(c)
  {
    if g < 26 then 'A' + g as char else '2' + (g - 26) as char
  }

  function IndexOf(c: char): (g: nat)
    requires IsLetter(c)
    ensures g < 32 && Letter(g) == c
  {
    if c >= 'A' then (c - 'A') as nat else (c - '2') as nat + 26
  }

  /** The letters are those of the alphabet, in order. */
  lemma AlphabetIs()
    ensures |ALPHABET| == 32 && forall g: nat | g < 32 :: ALPHABET[g] == Letter(g)
  {
  }

  function Letters(gs: seq<nat>): (s: string)
    requires forall i | 0 <= i < |gs| :: gs[i] < 32
    ensures |s| == |gs| && forall i | 0 <= i < |s| :: s[i] == Letter(gs[i])
  {
    seq(|gs|, i requires 0 <= i < |gs| => Letter(gs[i]))
  }

  function Indices(s: string): (gs: seq<nat>)
    requires forall i | 0 <= i < |s| :: IsLetter(s[i])
    ensures |gs| == |s| && forall i | 0 <= i < |gs| :: gs[i] < 32 && gs[i] == IndexOf(s[i])
  {
    seq(|s|, i requires 0 <= i < |s| => IndexOf(s[i]))
  }

  /** Upper-cased, everything outside the alphabet removed. */
  function Clean(s: string): (r: string)
    ensures forall i | 0 <= i < |r| :: IsLetter(r[i])
  {
    if |s| == 0 then ""
    else Clean(s[..|s| - 1]) + if IsLetter(Upper(s[|s| - 1])) then [Upper(s[|s| - 1])] else ""
  }

  function Encode(bytes: seq<Byte>): string {
    PowersOfTwo();
    Letters(Groups(Bits(bytes, 8)))
  }

  function Decode(s: string): (bytes: seq<Byte>) {
    PowersOfTwo();
    Octets(Bits(Indices(Clean(s)), 5))
  }

  // ---------------------------------------------------------------- regrouping lemmas

  /** Fives that spell the bits plus fewer than five zeros are the groups. */
  lemma {:induction false} GroupsAre(gs: seq<nat>, bs: seq<bool>, p: nat)
    requires p < 5 && Bits(gs, 5) == bs + Zeros(p) && forall i | 0 <= i < |gs| :: gs[i] < Pow2(5)
    ensures Groups(bs) == gs
    decreases |gs|
  {
    if |gs| == 0 {
      assert |bs + Zeros(p)| == 0;
    } else {
      var x, rest := gs[0], gs[1..];
      assert gs == [x] + rest;
      BitsCons(x, rest, 5);
      ValueOfLowBits(x, 5);
      if |bs| >= 5 {
        assert (bs + Zeros(p))[..5] == bs[..5] && (bs + Zeros(p))[5..] == bs[5..] + Zeros(p);
        SameStarts(LowBits(x, 5), Bits(rest, 5), bs[..5], bs[5..] + Zeros(p));
        GroupsAre(rest, bs[5..], p);
      } else {
        ShortBits(rest, 5);
        assert Bits(rest, 5) == [] && rest == [];
        assert |LowBits(x, 5)| == |bs| + p;
        assert bs + Zeros(5 - |bs|) == LowBits(x, 5);
      }
    }
  }

  lemma SameStarts(a: seq<bool>, a': seq<bool>, b: seq<bool>, b': seq<bool>)
    requires a + a' == b + b' && |a| == |b|
    ensures a == b && a' == b'
  {
    assert (a + a')[..|a|] == a && (b + b')[..|b|] == b;
    assert (a + a')[|a|..] == a' && (b + b')[|b|..] == b';
  }

  lemma ShortBits(xs: seq<nat>, w: nat)
    ensures |xs| > 0 ==> |Bits(xs, w)| >= w
  {
  }

  lemma Regroup(a: seq<bool>, b: seq<bool>, c: seq<bool>)
    ensures a + (b + c) == a + b + c
  {
  }

  lemma FirstOctet(a: seq<bool>, tail: seq<bool>)
    requires |a| == 8
    ensures Octets(a + tail) == [Value(a)] + Octets(tail)
  {
    assert (a + tail)[..8] == a && (a + tail)[8..] == tail;
  }

  /** Octets whose bits are a prefix, all but fewer than eight, are the octets. */
  lemma {:induction false} OctetsAre(os: seq<nat>, bs: seq<bool>, rest: seq<bool>)
    requires |rest| < 8 && Bits(os, 8) + rest == bs && forall i | 0 <= i < |os| :: os[i] < Pow2(8)
    ensures Octets(bs) == os
    decreases |os|
  {
    if |os| == 0 {
      assert Bits(os, 8) == [];
    } else {
      var x, more := os[0], os[1..];
      assert os == [x] + more;
      BitsCons(x, more, 8);
      ValueOfLowBits(x, 8);
      var tail := Bits(more, 8) + rest;
      Regroup(LowBits(x, 8), Bits(more, 8), rest);
      OctetsAre(more, tail, rest);
      FirstOctet(LowBits(x, 8), tail);
    }
  }

  /** The groups of a bit string spell it, followed by fewer than five zeros. */
  lemma {:induction false} GroupsSpell(bs: seq<bool>) returns (p: nat)
    ensures p < 5 && Bits(Groups(bs), 5) == bs + Zeros(p)
    decreases |bs|
  {
    if |bs| == 0 {
      p := 0;
    } else if |bs| < 5 {
      p := 5 - |bs|;
      LowBitsOfValue(bs + Zeros(p));
      BitsCons(Value(bs + Zeros(p)), [], 5);
      assert Groups(bs) == [Value(bs + Zeros(p))] + [];
    } else {
      var a, rest := bs[..5], bs[5..];
      p := GroupsSpell(rest);
      LowBitsOfValue(a);
      BitsCons(Value(a), Groups(rest), 5);
      Regroup(a, rest, Zeros(p));
      assert a + rest == bs;
    }
  }

  // --------------------------------------------------------------------------- theorems

  lemma {:induction false} CleanKeeps(s: string)
    requires forall i | 0 <= i < |s| :: IsLetter(s[i])
    ensures Clean(s) == s
  {
    if |s| > 0 {
      CleanKeeps(s[..|s| - 1]);
      assert s == s[..|s| - 1] + [s[|s| - 1]];
    }
  }

  lemma IndicesOfLetters(gs: seq<nat>)
    requires forall i | 0 <= i < |gs| :: gs[i] < 32
    ensures Indices(Letters(gs)) == gs
  {
  }

  /** Every byte sequence survives encoding and decoding. */
  lemma RoundTrip(bytes: seq<Byte>)
    ensures Decode(Encode(bytes)) == bytes
  {
    PowersOfTwo();
    var bs := Bits(bytes, 8);
    var gs := Groups(bs);
    CleanKeeps(Encode(bytes));
    IndicesOfLetters(gs);
    var p := GroupsSpell(bs);
    OctetsAre(bytes, bs + Zeros(p), Zeros(p));
  }

  /** Case, spaces, dashes and padding do not matter to the decoder. */
  lemma DecodeIgnoresNoise(s: string)
    ensures Decode(Clean(s)) == Decode(s)
  {
    CleanKeeps(Clean(s));
  }

  lemma {:induction false} BitsLength(xs: seq<nat>, w: nat)
    ensures |Bits(xs, w)| == |xs| * w
  {
    if |xs| > 0 {
      BitsLength(xs[..|xs| - 1], w);
      assert |xs| * w == (|xs| - 1) * w + w;
    }
  }

  /** The unpadded length: one character per five bits, rounded up. */
  lemma EncodedLength(bytes: seq<Byte>)
    ensures |Encode(bytes)| == (8 * |bytes| + 4) / 5
  {
    PowersOfTwo();
    var p := GroupsSpell(Bits(bytes, 8));
    BitsLength(bytes, 8);
    BitsLength(Groups(Bits(bytes, 8)), 5);
  }

  // ------------------------------------------------------------------ wrapping accumulators

  /** The accumulator holds, in its low bits, what has been read but not written. */
  ghost predicate Pending(out: seq<nat>, w: nat, value: nat, bits: nat, target: seq<bool>) {
    Bits(out, w) + LowBits(value, bits) == target && forall i | 0 <= i < |out| :: out[i] < Pow2(w)
  }

  lemma ShiftedAndWrapped(value: nat, bits: nat, x: nat, c: nat)
    requires x < Pow2(c) && bits + c <= 32
    ensures LowBits(Keep(Shl(value, c) + x, 32), bits + c) == LowBits(value, bits) + LowBits(x, c)
  {
    LowBitsOfKeep(Shl(value, c) + x, 32, bits + c);
    LowBitsShifted(value, bits, x, c);
  }

  /** Shifting a word of c bits into the wrapped accumulator. */
  lemma ShiftIn(out: seq<nat>, w: nat, value: nat, bits: nat, target: seq<bool>, x: nat, c: nat)
    requires Pending(out, w, value, bits, target) && x < Pow2(c) && bits + c <= 32
    ensures Pending(out, w, Keep(Shl(value, c) + x, 32), bits + c, target + LowBits(x, c))
  {
    ShiftedAndWrapped(value, bits, x, c);
    Regroup(Bits(out, w), LowBits(value, bits), LowBits(x, c));
  }

  /** Taking the upper w of the pending bits out as a word. */
  lemma TakeOut(out: seq<nat>, w: nat, value: nat, bits: nat, target: seq<bool>)
    requires Pending(out, w, value, bits, target) && bits >= w
    ensures Pending(out + [Keep(Shr(value, bits - w), w)], w, value, bits - w, target)
  {
    var c := bits - w;
    var x := Keep(Shr(value, c), w);
    LowBitsSplit(value, w, c);
    LowBitsOfKeep(Shr(value, c), w, w);
    BitsAppended(out, x, w);
    assert Bits(out, w) + (LowBits(x, w) + LowBits(value, c)) == Bits(out, w) + LowBits(x, w) + LowBits(value, c);
  }

  /** The last, short group: the pending bits shifted up. */
  lemma FillUp(out: seq<nat>, value: nat, bits: nat, target: seq<bool>)
    requires Pending(out, 5, value, bits, target) && bits < 5
    ensures Groups(target) == if bits == 0 then out else out + [Keep(Keep(Shl(value, 5 - bits), 32), 5)]
  {
    if bits == 0 {
      assert Zeros(0) == [] && target == target + Zeros(0);
      GroupsAre(out, target, 0);
    } else {
      var c := 5 - bits;
      var y := Shl(value, c);
      var x := Keep(Keep(y, 32), 5);
      LowBitsShifted(value, bits, 0, c);
      LowBitsOfZero(c);
      LowBitsOfKeep(y, 32, 5);
      LowBitsOfKeep(Keep(y, 32), 5, 5);
      BitsAppended(out, x, 5);
      assert Bits(out, 5) + (LowBits(value, bits) + Zeros(c)) == target + Zeros(c);
      GroupsAre(out + [x], target, c);
    }
  }

  lemma BitsNext(xs: seq<nat>, i: nat, w: nat)
    requires i < |xs|
    ensures Bits(xs[..i + 1], w) == Bits(xs[..i], w) + LowBits(xs[i], w)
  {
    assert xs[..i + 1] == xs[..i] + [xs[i]];
    BitsAppended(xs[..i], xs[i], w);
  }

  /** The inner loop: writes characters while five bits or more are pending. */
  method WriteGroups(value: nat, pending: nat, written: string, ghost gs: seq<nat>, ghost target: seq<bool>)
    returns (bits: nat, output: string, ghost gs': seq<nat>)
    requires Pending(gs, 5, value, pending, target) && Pow2(5) == 32 && written == Letters(gs)
    ensures bits < 5 && Pending(gs', 5, value, bits, target) && output == Letters(gs')
  {
    bits, output, gs' := pending, written, gs;
    while bits >= 5
      invariant Pending(gs', 5, value, bits, target) && output == Letters(gs')
    {
      TakeOut(gs', 5, value, bits, target);
      var g := Keep(Shr(value, bits - 5), 5);
      output := output + [Letter(g)];
      gs' := gs' + [g];
      bits := bits - 5;
    }
  }

  /** What is left after the loop: a short group becomes one more character. */
  method WriteRest(value: nat, bits: nat, written: string, ghost gs: seq<nat>, ghost target: seq<bool>) returns (output: string)
    requires Pending(gs, 5, value, bits, target) && bits < 5 && Pow2(5) == 32 && written == Letters(gs)
    ensures output == Letters(Groups(target))
  {
    FillUp(gs, value, bits, target);
    output := written;
    if bits > 0 {
      output := output + [Letter(Keep(Keep(Shl(value, 5 - bits), 32), 5))];
    }
  }

  lemma ByteIn(gs: seq<nat>, value: nat, bits: nat, buffer: seq<Byte>, i: nat)
    requires i < |buffer| && bits < 5 && Pending(gs, 5, value, bits, Bits(buffer[..i], 8))
    ensures Pending(gs, 5, Keep(Shl(value, 8) + buffer[i], 32), bits + 8, Bits(buffer[..i + 1], 8))
  {
    PowersOfTwo();
    ShiftIn(gs, 5, value, bits, Bits(buffer[..i], 8), buffer[i], 8);
    BitsNext(buffer, i, 8);
  }

  /** The source's loop, with its 32-bit accumulator, computes the reference encoding. */
  method Base32Encode(buffer: seq<Byte>) returns (output: string)
    ensures output == Encode(buffer)
  {
    PowersOfTwo();
    var bits, value := 0, 0;
    output := "";
    ghost var gs: seq<nat> := [];
    for i := 0 to |buffer|
      invariant 0 <= bits < 5 && value >= 0
      invariant Pending(gs, 5, value, bits, Bits(buffer[..i], 8)) && output == Letters(gs)
    {
      ByteIn(gs, value, bits, buffer, i);
      value := Keep(Shl(value, 8) + buffer[i], 32);
      bits, output, gs := WriteGroups(value, bits + 8, output, gs, Bits(buffer[..i + 1], 8));
    }
    assert buffer[..|buffer|] == buffer;
    output := WriteRest(value, bits, output, gs, Bits(buffer, 8));
  }

  /** At most one octet is complete after five more bits. */
  method WriteOctet(value: nat, pending: nat, written: seq<Byte>, ghost target: seq<bool>) returns (bits: nat, bytes: seq<Byte>)
    requires Pending(written, 8, value, pending, target) && pending < 16 && Pow2(8) == 256
    ensures bits < 8 && Pending(bytes, 8, value, bits, target)
  {
    bits, bytes := pending, written;
    if bits >= 8 {
      TakeOut(bytes, 8, value, bits, target);
      bytes := bytes + [Keep(Shr(value, bits - 8), 8)];
      bits := bits - 8;
    }
  }

  method Base32Decode(input: string) returns (bytes: seq<Byte>)
    ensures bytes == Decode(input)
  {
    PowersOfTwo();
    var cleaned := Clean(input);
    ghost var gs := Indices(cleaned);
    var bits, value := 0, 0;
    bytes := [];
    for i := 0 to |cleaned|
      invariant 0 <= bits < 8 && value >= 0
      invariant Pending(bytes, 8, value, bits, Bits(gs[..i], 5))
    {
      ShiftIn(bytes, 8, value, bits, Bits(gs[..i], 5), gs[i], 5);
      BitsNext(gs, i, 5);
      value := Keep(Shl(value, 5) + IndexOf(cleaned[i]), 32);
      bits, bytes := WriteOctet(value, bits + 5, bytes, Bits(gs[..i + 1], 5));
    }
    assert gs[..|gs|] == gs;
    OctetsAre(bytes, Bits(gs, 5), LowBits(value, bits));
  }
}
