/** Outcomes shared by every component. */
module Prelude {

  datatype Option<+T> = None | Some(value: T)

  /** A command either commits with a value or throws, which rolls its transaction back. */
  datatype Result<+T> = Ok(value: T) | Err(code: string) {
    predicate IsFailure() {
      Err?
    }

    function PropagateFailure<U>(): Result<U>
      requires Err?
    {
      Err(code)
    }

    function Extract(): T
      requires Ok?
    {
      value
    }
  }
}

/** Sums over the rows of a table; every money invariant is stated with them. */
module Sums {

  function Sum(n: nat, f: nat -> int): int {
    if n == 0 then 0 else Sum(n - 1, f) + f(n - 1)
  }

  lemma {:induction false} SumAgree(n: nat, f: nat -> int, g: nat -> int)
    requires forall i: nat | i < n :: f(i) == g(i)
    ensures Sum(n, f) == Sum(n, g)
  {
    if n > 0 {
      SumAgree(n - 1, f, g);
    }
  }

  /** Changing one row changes the sum by exactly that row's difference. */
  lemma {:induction false} SumDelta(n: nat, f: nat -> int, g: nat -> int, k: nat)
    requires k < n
    requires forall i: nat | i < n && i != k :: f(i) == g(i)
    ensures Sum(n, g) == Sum(n, f) + g(k) - f(k)
  {
    if k == n - 1 {
      SumAgree(n - 1, f, g);
    } else {
      SumDelta(n - 1, f, g, k);
    }
  }

  /** With no negative row, every row is at most the sum. */
  lemma {:induction false} SumDominates(n: nat, f: nat -> int)
    requires forall i: nat | i < n :: f(i) >= 0
    ensures Sum(n, f) >= 0
    ensures forall i: nat | i < n :: f(i) <= Sum(n, f)
  {
    if n > 0 {
      SumDominates(n - 1, f);
    }
  }

  lemma {:induction false} SumAdds(n: nat, f: nat -> int, g: nat -> int, h: nat -> int)
    requires forall i: nat | i < n :: h(i) == f(i) + g(i)
    ensures Sum(n, h) == Sum(n, f) + Sum(n, g)
  {
    if n > 0 {
      SumAdds(n - 1, f, g, h);
    }
  }

  /** A quantity that grows by f(i) at each row is the sum. */
  lemma {:induction false} SumTelescopes(n: nat, f: nat -> int, g: nat -> int)
    requires g(0) == 0 && forall i: nat | i < n :: g(i + 1) == g(i) + f(i)
    ensures Sum(n, f) == g(n)
  {
    if n > 0 {
      SumTelescopes(n - 1, f, g);
      assert g(n - 1 + 1) == g(n - 1) + f(n - 1);
    }
  }

  lemma {:induction false} SumZero(n: nat, f: nat -> int)
    requires forall i: nat | i < n :: f(i) == 0
    ensures Sum(n, f) == 0
  {
    if n > 0 {
      SumZero(n - 1, f);
    }
  }

  /** Without negative rows, the sum is positive exactly when some row is. */
  lemma SumPositiveIff(n: nat, f: nat -> int)
    requires forall i: nat | i < n :: f(i) >= 0
    ensures Sum(n, f) > 0 <==> exists i: nat :: i < n && f(i) > 0
  {
    SumDominates(n, f);
    if forall i: nat | i < n :: f(i) <= 0 {
      SumZero(n, f);
    }
  }

  /** A sum of zeros and ones counts the ones. */
  lemma {:induction false} SumCounts(n: nat, f: nat -> int)
    requires forall i: nat | i < n :: f(i) == 0 || f(i) == 1
    ensures Sum(n, f) == |set i: nat | i < n && f(i) == 1|
  {
    var upTo := set i: nat | i < n && f(i) == 1;
    if n > 0 {
      SumCounts(n - 1, f);
      var before := set i: nat | i < n - 1 && f(i) == 1;
      assert upTo == if f(n - 1) == 1 then before + {n - 1} else before;
    } else {
      assert upTo == {};
    }
  }

  lemma {:induction false} SumMonotone(n: nat, f: nat -> int, g: nat -> int)
    requires forall i: nat | i < n :: f(i) <= g(i)
    ensures Sum(n, f) <= Sum(n, g)
  {
    if n > 0 {
      SumMonotone(n - 1, f, g);
    }
  }
}

/** Characters as the platform's string functions see them. */
module Text {

  /** White space in the sense of trim() and of the class \s in ECMAScript. */
  predicate IsSpace(c: char) {
    || '\t' <= c <= '\r' || c == ' ' || c == '\U{00A0}' || c == '\U{1680}' || '\U{2000}' <= c <= '\U{200A}'
    || c in {'\U{2028}', '\U{2029}', '\U{202F}', '\U{205F}', '\U{3000}', '\U{FEFF}'}
  }

  predicate Blank(s: string) {
    forall i | 0 <= i < |s| :: IsSpace(s[i])
  }

  function TrimStart(s: string): string {
    if |s| > 0 && IsSpace(s[0]) then TrimStart(s[1..]) else s
  }

  function TrimEnd(s: string): string {
    if |s| > 0 && IsSpace(s[|s| - 1]) then TrimEnd(s[..|s| - 1]) else s
  }

  function Trim(s: string): string {
    TrimEnd(TrimStart(s))
  }

  lemma {:induction false} BlankStart(a: string, s: string)
    requires Blank(a)
    ensures TrimStart(a + s) == TrimStart(s)
  {
    if |a| == 0 {
      assert a + s == s;
    } else {
      assert (a + s)[1..] == a[1..] + s;
      BlankStart(a[1..], s);
    }
  }

  lemma {:induction false} BlankEnd(s: string, b: string)
    requires Blank(b)
    ensures TrimEnd(s + b) == TrimEnd(s)
  {
    if |b| == 0 {
      assert s + b == s;
    } else {
      assert (s + b)[..|s + b| - 1] == s + b[..|b| - 1];
      BlankEnd(s, b[..|b| - 1]);
    }
  }

  /** Trimming takes white space off both ends and nothing else. */
  lemma TrimKeeps(a: string, s: string, b: string)
    requires Blank(a) && Blank(b) && (|s| > 0 ==> !IsSpace(s[0]) && !IsSpace(s[|s| - 1]))
    ensures Trim(a + s + b) == s
  {
    assert a + s + b == a + (s + b);
    BlankStart(a, s + b);
    if |s| == 0 {
      assert s + b == b + "" && TrimStart(b + "") == TrimStart("") by {
        BlankStart(b, "");
        assert b + "" == b;
      }
    } else {
      assert (s + b)[0] == s[0];
      BlankEnd(s, b);
    }
  }

  /** Upper case of an ASCII letter; every other character stays. */
  function Upper(c: char): char {
    if 'a' <= c <= 'z' then c - 'a' + 'A' else c
  }

  function UpperCase(s: string): string {
    seq(|s|, i requires 0 <= i < |s| => Upper(s[i]))
  }

  /** The first n characters. */
  function Cut(s: string, n: nat): string {
    if |s| > n then s[..n] else s
  }
}
