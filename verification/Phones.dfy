/** Kenyan phone numbers (packages/validation/src/phone.ts). */
module Phones {
  import opened Prelude

  predicate IsDigit(c: char) { '0' <= c <= '9' }

  predicate Kept(c: char) { IsDigit(c) || c == '+' }

  /** Everything but digits and plus signs is dropped. */
  function Strip(raw: string): (r: string)
    ensures forall i | 0 <= i < |r| :: Kept(r[i])
  {
    if |raw| == 0 then "" else Strip(raw[..|raw| - 1]) + if Kept(raw[|raw| - 1]) then [raw[|raw| - 1]] else ""
  }

  /** A leading plus sign is dropped. */
  function Bare(s: string): string {
    if |s| > 0 && s[0] == '+' then s[1..] else s
  }

  /** A leading zero stands for the country code. */
  function National(stripped: string): string {
    var d := Bare(stripped);
    if |d| > 0 && d[0] == '0' then "254" + d[1..] else d
  }

  function Normalize(raw: string): (r: Option<string>)
    ensures r.Some? ==> |r.value| == 13 && r.value[..4] == "+254"
  {
    var d := National(Strip(raw));
    if |d| != 12 || d[..3] != "254" then None else Some("+" + d)
  }

  lemma {:induction false} StripKeeps(s: string)
    requires forall i | 0 <= i < |s| :: Kept(s[i])
    ensures Strip(s) == s
  {
    if |s| > 0 {
      StripKeeps(s[..|s| - 1]);
      assert s == s[..|s| - 1] + [s[|s| - 1]];
    }
  }

  lemma NationalKept(s: string)
    requires forall i | 0 <= i < |s| :: Kept(s[i])
    ensures forall i | 0 <= i < |National(s)| :: Kept(National(s)[i])
  {
  }

  /** Normalising a normalised number changes nothing, so the stored form can be compared and normalised again. */
  lemma NormalizeIdempotent(raw: string)
    requires Normalize(raw).Some?
    ensures Normalize(Normalize(raw).value) == Normalize(raw)
  {
    var v := Normalize(raw).value;
    NationalKept(Strip(raw));
    StripKeeps(v);
    assert v[1..] == National(Strip(raw)) && v[1..][..3] == "254";
  }

  predicate AllDigits(s: string) { forall i | 0 <= i < |s| :: IsDigit(s[i]) }

  predicate NoInnerPlus(s: string) { forall i | 1 <= i < |s| :: s[i] != '+' }

  lemma BareDigits(s: string)
    requires (forall i | 0 <= i < |s| :: Kept(s[i])) && |Bare(s)| > 0 && IsDigit(Bare(s)[0])
    ensures AllDigits(Bare(s)) <==> NoInnerPlus(s)
  {
    if s[0] == '+' {
      assert forall i | 1 <= i < |s| :: s[i] == Bare(s)[i - 1];
    }
  }

  lemma NationalDigits(s: string)
    requires |Bare(s)| > 0 && Bare(s)[0] == '0'
    ensures AllDigits(National(s)) <==> AllDigits(Bare(s))
  {
    var b, d := Bare(s), National(s);
    assert d == "254" + b[1..];
    forall i | 1 <= i < |b| ensures b[i] == d[i + 2] {}
    forall i | 3 <= i < |d| ensures d[i] == b[i - 2] {}
  }

  /** The accepted number is +254 and nine digits exactly when the input has no plus sign after its first kept character. */
  lemma AcceptedIsE164Iff(raw: string)
    requires Normalize(raw).Some?
    ensures AllDigits(Normalize(raw).value[1..]) <==> NoInnerPlus(Strip(raw))
  {
    var s := Strip(raw);
    var v := Normalize(raw).value[1..];
    assert v == National(s) && v[..3] == "254" && v[0] == '2';
    if Bare(s)[0] == '0' {
      NationalDigits(s);
    }
    BareDigits(s);
  }

  /** An inner plus sign does get through: this is accepted as a phone number. */
  lemma InnerPlusAccepted()
    ensures Normalize("+254+12345678") == Some("+254+12345678")
  {
    var s := "+254+12345678";
    StripKeeps(s);
    assert National(s) == Bare(s) == "254+12345678";
    assert National(s)[..3] == "254";
    assert "+" + National(s) == s;
  }

  // ------------------------------------------------------------ which numbers are accepted

  /** The text without some characters, such as spaces and dashes. */
  function Without(s: string, noise: set<char>): string {
    if |s| == 0 then "" else Without(s[..|s| - 1], noise) + if s[|s| - 1] in noise then "" else [s[|s| - 1]]
  }

  /** No digit and no plus sign. */
  predicate IsNoise(noise: set<char>) {
    forall c | c in noise :: c != '+' && !('0' <= c <= '9')
  }

  predicate NineDigits(t: string) {
    |t| == 9 && forall i | 0 <= i < 9 :: '0' <= t[i] <= '9'
  }

  /** A subscriber number with the country code, with or without plus sign, or with the trunk zero. */
  predicate Writes(s: string, t: string) {
    s == "0" + t || s == "254" + t || s == "+254" + t
  }

  lemma {:induction false} StripIgnores(raw: string, noise: set<char>)
    requires IsNoise(noise)
    ensures Strip(Without(raw, noise)) == Strip(raw)
  {
    if |raw| > 0 {
      var c, s := raw[|raw| - 1], Without(raw[..|raw| - 1], noise);
      StripIgnores(raw[..|raw| - 1], noise);
      if c in noise {
        assert s + "" == s;
      } else {
        assert (s + [c])[..|s + [c]| - 1] == s;
      }
    }
  }

  /** Spaces, dashes and whatever else is neither digit nor plus sign make no difference anywhere. */
  lemma NormalizeIgnores(raw: string, noise: set<char>)
    requires IsNoise(noise)
    ensures Normalize(raw) == Normalize(Without(raw, noise))
  {
    StripIgnores(raw, noise);
  }

  lemma WrittenIsNational(s: string, t: string)
    requires Writes(s, t) || s == "+0" + t
    ensures National(s) == "254" + t
  {
    var b := Bare(s);
    if s == "0" + t || s == "+0" + t {
      assert b == "0" + t;
      assert b[1..] == t;
    } else {
      assert b == "254" + t;
    }
  }

  lemma NationalIsWritten(s: string, t: string)
    requires National(s) == "254" + t
    ensures Writes(s, t) || s == "+0" + t
  {
    var b := Bare(s);
    assert s == b || s == "+" + b;
    if b[0] == '0' {
      assert ("254" + b[1..])[3..] == b[1..] && ("254" + t)[3..] == t;
      assert b == "0" + t;
      assert "+" + ("0" + t) == "+0" + t;
    } else {
      assert "+" + ("254" + t) == "+254" + t;
    }
  }

  /** A text of digits and plus signs is normalised to +254 and t exactly when its national form is 254 and t. */
  lemma NormalizeKept(s: string, t: string)
    requires (forall i | 0 <= i < |s| :: Kept(s[i])) && |t| == 9
    ensures Normalize(s) == Some("+254" + t) <==> National(s) == "254" + t
  {
    StripKeeps(s);
    PlusCancels(National(s), "254" + t, "+254" + t);
    assert ("254" + t)[..3] == "254";
  }

  lemma PlusCancels(a: string, b: string, plusB: string)
    requires |plusB| == |b| + 1 && plusB[0] == '+' && plusB[1..] == b
    ensures "+" + a == plusB <==> a == b
  {
    assert ("+" + a)[1..] == a;
    assert "+" + b == plusB;
  }

  lemma FormIff(s: string, t: string)
    requires (forall i | 0 <= i < |s| :: Kept(s[i])) && |t| == 9
    ensures Normalize(s) == Some("+254" + t) <==> Writes(s, t) || s == "+0" + t
  {
    assert Normalize(s) == Some("+254" + t) <==> National(s) == "254" + t by {
      NormalizeKept(s, t);
    }
    if National(s) == "254" + t {
      NationalIsWritten(s, t);
    } else if Writes(s, t) || s == "+0" + t {
      WrittenIsNational(s, t);
    }
  }

  lemma {:induction false} WithoutChars(raw: string, noise: set<char>)
    ensures forall i | 0 <= i < |Without(raw, noise)| :: Without(raw, noise)[i] in raw && Without(raw, noise)[i] !in noise
  {
    if |raw| > 0 {
      WithoutChars(raw[..|raw| - 1], noise);
    }
  }

  /** Leaving out everything but digits and plus signs, the numbers that stand for +254 and t are exactly 0t, 254t, +254t and +0t. */
  lemma NormalizesToIff(raw: string, t: string, noise: set<char>)
    requires IsNoise(noise) && |t| == 9 && forall i | 0 <= i < |raw| :: '0' <= raw[i] <= '9' || raw[i] == '+' || raw[i] in noise
    ensures Normalize(raw) == Some("+254" + t) <==> Writes(Without(raw, noise), t) || Without(raw, noise) == "+0" + t
  {
    NormalizeIgnores(raw, noise);
    WithoutChars(raw, noise);
    FormIff(Without(raw, noise), t);
  }

  lemma WrittenKept(s: string, t: string)
    requires NineDigits(t) && Writes(s, t)
    ensures forall i | 0 <= i < |s| :: Kept(s[i])
  {
    var head := s[..|s| - 9];
    assert head in {"0", "254", "+254"} && s == head + t;
  }

  /** So every subscriber number of nine digits is accepted, however it is written. */
  lemma SubscriberAccepted(raw: string, t: string, noise: set<char>)
    requires NineDigits(t) && IsNoise(noise) && Writes(Without(raw, noise), t)
    ensures Normalize(raw) == Some("+254" + t)
  {
    NormalizeIgnores(raw, noise);
    WrittenKept(Without(raw, noise), t);
    FormIff(Without(raw, noise), t);
  }
}
