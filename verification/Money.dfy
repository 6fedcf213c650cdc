/**
 Amounts as text (packages/money/src/money.ts): parsing accepts four shapes and
 never uses floating point, printing gives a decimal string or a grouped display.
 */
module Money {
  import opened Prelude
  import opened Text

  predicate IsDigit(c: char) { '0' <= c <= '9' }

  predicate Digits(s: string) { forall i | 0 <= i < |s| :: IsDigit(s[i]) }

  /** The number that decimal digits denote. */
  function Num(s: string): (n: nat)
    requires Digits(s)
  {
    if |s| == 0 then 0 else 10 * Num(s[..|s| - 1]) + (s[|s| - 1] - '0') as nat
  }

  /** Decimal digits of a number, without leading zeros. */
  function Dec(n: nat): (s: string)
    ensures |s| >= 1 && Digits(s) && Num(s) == n
  {
    if n < 10 then [n as char + '0']
    else
      var t := Dec(n / 10) + [(n % 10) as char + '0'];
      assert t[..|t| - 1] == Dec(n / 10);
      t
  }

  // ------------------------------------------------------------------------ shapes

  function IndexOf(s: string, c: char): (r: Option<nat>)
    ensures r.Some? ==> r.value < |s| && s[r.value] == c && forall i | 0 <= i < r.value :: s[i] != c
    ensures r.None? <==> forall i | 0 <= i < |s| :: s[i] != c
  {
    if |s| == 0 then None
    else if s[0] == c then Some(0)
    else
      var r := IndexOf(s[1..], c);
      if r.Some? then Some(r.value + 1) else None
  }

  /** A separator followed by three digits. */
  predicate Triple(s: string, sep: char) {
    |s| == 4 && s[0] == sep && Digits(s[1..])
  }

  predicate Short(s: string) { 1 <= |s| <= 3 && Digits(s) }

  /** One to three digits, then one or more groups of three. */
  predicate Grouped(s: string, sep: char) {
    && |s| >= 5
    && Triple(s[|s| - 4..], sep)
    && (Short(s[..|s| - 4]) || Grouped(s[..|s| - 4], sep))
  }

  /** At least two groups of three. */
  predicate ManyGroups(s: string, sep: char) {
    |s| >= 5 && Triple(s[|s| - 4..], sep) && Grouped(s[..|s| - 4], sep)
  }

  predicate Fraction(s: string) { 1 <= |s| <= 2 && Digits(s) }

  predicate Plain(s: string) { |s| >= 1 && Digits(s) }

  datatype Shape = CommaGroups | DotGroups | DotDecimal | CommaDecimal

  /** The decimal mark of a shape and the grouping mark that goes with it. */
  function Mark(shape: Shape): char { if shape.CommaGroups? || shape.DotDecimal? then '.' else ',' }

  function Grouping(shape: Shape): char { if shape.CommaGroups? || shape.DotDecimal? then ',' else '.' }

  /** The whole part as the shape wants it; without decimals dots group only twice or more. */
  predicate WholeFits(shape: Shape, w: string, bare: bool) {
    match shape
    case CommaGroups => Grouped(w, ',')
    case DotGroups => if bare then ManyGroups(w, '.') else Grouped(w, '.')
    case DotDecimal => Plain(w)
    case CommaDecimal => Plain(w)
  }

  predicate Matches(shape: Shape, s: string) {
    match IndexOf(s, Mark(shape))
    case None => WholeFits(shape, s, true)
    case Some(i) => WholeFits(shape, s[..i], false) && Fraction(s[i + 1..])
  }

  function Remove(s: string, c: char): (r: string) {
    if |s| == 0 then "" else Remove(s[..|s| - 1], c) + if s[|s| - 1] == c then "" else [s[|s| - 1]]
  }

  function WholePart(shape: Shape, s: string): string {
    match IndexOf(s, Mark(shape))
    case None => s
    case Some(i) => s[..i]
  }

  function FractionPart(shape: Shape, s: string): string {
    match IndexOf(s, Mark(shape))
    case None => ""
    case Some(i) => s[i + 1..]
  }

  lemma {:induction false} RemoveDigits(s: string, c: char)
    requires Digits(s) && !IsDigit(c)
    ensures Remove(s, c) == s
  {
    if |s| > 0 {
      RemoveDigits(s[..|s| - 1], c);
      assert s == s[..|s| - 1] + [s[|s| - 1]];
    }
  }

  lemma {:induction false} RemoveJoins(s: string, t: string, c: char)
    ensures Remove(s + t, c) == Remove(s, c) + Remove(t, c)
    decreases |t|
  {
    if |t| == 0 {
      assert s + t == s;
    } else {
      var n := |t| - 1;
      assert (s + t)[..|s + t| - 1] == s + t[..n];
      RemoveJoins(s, t[..n], c);
    }
  }

  lemma RemoveTriple(s: string, sep: char)
    requires Triple(s, sep) && !IsDigit(sep)
    ensures Remove(s, sep) == s[1..]
  {
    assert s == [sep] + s[1..];
    RemoveJoins([sep], s[1..], sep);
    RemoveDigits(s[1..], sep);
    assert [sep][..0] == "";
  }

  /** A grouped number without its separators is digits only. */
  lemma {:induction false} GroupedDigits(s: string, sep: char)
    requires Grouped(s, sep) && !IsDigit(sep)
    ensures Plain(Remove(s, sep))
  {
    var k := |s| - 4;
    assert s == s[..k] + s[k..];
    RemoveJoins(s[..k], s[k..], sep);
    RemoveTriple(s[k..], sep);
    if Short(s[..k]) {
      RemoveDigits(s[..k], sep);
    } else {
      GroupedDigits(s[..k], sep);
    }
  }

  lemma WholeDigits(shape: Shape, w: string, bare: bool)
    requires WholeFits(shape, w, bare)
    ensures Plain(Remove(w, Grouping(shape)))
  {
    match shape {
      case CommaGroups => GroupedDigits(w, ',');
      case DotGroups => GroupedDigits(w, '.');
      case DotDecimal => RemoveDigits(w, ',');
      case CommaDecimal => RemoveDigits(w, '.');
    }
  }

  /** A fraction of at most two digits, filled up with zeros to two. */
  function Padded(f: string): (r: string)
    requires |f| <= 2 && Digits(f)
    ensures |r| == 2 && Digits(r)
  {
    f + seq(2 - |f|, _ => '0')
  }

  /** The minor units an unsigned string of a shape stands for. */
  function Minor(shape: Shape, s: string): nat
    requires Matches(shape, s)
  {
    WholeDigits(shape, WholePart(shape, s), IndexOf(s, Mark(shape)).None?);
    Num(Remove(WholePart(shape, s), Grouping(shape))) * 100 + Num(Padded(FractionPart(shape, s)))
  }

  function NoSpaces(s: string): string {
    if |s| == 0 then "" else NoSpaces(s[..|s| - 1]) + if IsSpace(s[|s| - 1]) then "" else [s[|s| - 1]]
  }

  /** The first shape that matches, in the source's order. */
  function ShapeOf(s: string): (r: Option<Shape>)
    ensures r.Some? ==> Matches(r.value, s)
    ensures r.None? <==> forall shape :: !Matches(shape, s)
  {
    if Matches(CommaGroups, s) then Some(CommaGroups)
    else if Matches(DotGroups, s) then Some(DotGroups)
    else if Matches(DotDecimal, s) then Some(DotDecimal)
    else if Matches(CommaDecimal, s) then Some(CommaDecimal)
    else None
  }

  function Unsigned(s: string): string {
    if |s| > 0 && s[0] == '-' then s[1..] else s
  }

  /** The minor units of an unsigned amount, if it is one. */
  function Read(u: string): Option<nat> {
    match ShapeOf(u)
    case None => None
    case Some(shape) => Some(Minor(shape, u))
  }

  function Parse(raw: string): (r: Result<int>) {
    var cleaned := NoSpaces(raw);
    var unsigned := Unsigned(cleaned);
    match Read(unsigned)
    case None => Err("INVALID_AMOUNT")
    case Some(minor) => Ok(if unsigned != cleaned then 0 - minor else minor)
  }

  // -------------------------------------------------------------- shapes never disagree

  lemma {:induction false} GroupedHas(s: string, sep: char)
    requires Grouped(s, sep)
    ensures exists i :: 0 <= i < |s| && s[i] == sep
    ensures forall i | 0 <= i < |s| :: s[i] == sep || IsDigit(s[i])
  {
    var k := |s| - 4;
    assert s[k] == s[k..][0];
    forall i | k < i < |s| ensures IsDigit(s[i]) {
      assert s[i] == s[k..][1..][i - k - 1];
    }
    if !Short(s[..k]) {
      GroupedHas(s[..k], sep);
    }
    forall i | 0 <= i < k ensures s[i] == sep || IsDigit(s[i]) {
      assert s[i] == s[..k][i];
    }
  }

  /** A grouped shape contains its grouping mark; a plain one does not. */
  lemma GroupMark(shape: Shape, s: string)
    requires Matches(shape, s)
    ensures (shape.CommaGroups? || shape.DotGroups?) <==> exists i :: 0 <= i < |s| && s[i] == Grouping(shape)
    ensures forall i | 0 <= i < |s| :: s[i] == Mark(shape) || s[i] == Grouping(shape) || IsDigit(s[i])
  {
    var w := WholePart(shape, s);
    if shape.CommaGroups? || shape.DotGroups? {
      GroupedHas(w, Grouping(shape));
      var i :| 0 <= i < |w| && w[i] == Grouping(shape);
      assert s[i] == Grouping(shape);
    }
    var m := IndexOf(s, Mark(shape));
    forall i | 0 <= i < |s|
      ensures s[i] == Mark(shape) || IsDigit(s[i]) || ((shape.CommaGroups? || shape.DotGroups?) && s[i] == Grouping(shape))
    {
      if m.None? {
        assert w == s;
      } else if i < m.value {
        assert s[i] == w[i];
      } else if i > m.value {
        assert s[i] == s[m.value + 1..][i - m.value - 1];
      }
    }
  }

  /** The last four characters of a grouped number are a mark and three digits. */
  lemma GroupedTail(s: string, sep: char)
    requires Grouped(s, sep) && !IsDigit(sep)
    ensures |s| >= 5 && s[|s| - 4] == sep && IsDigit(s[|s| - 3]) && IsDigit(s[|s| - 2]) && IsDigit(s[|s| - 1])
  {
    var t := s[|s| - 4..];
    assert t[0] == s[|s| - 4];
    assert t[1..][0] == s[|s| - 3] && t[1..][1] == s[|s| - 2] && t[1..][2] == s[|s| - 1];
  }

  /** After the decimal mark there are only digits. */
  lemma AfterMark(shape: Shape, s: string, m: nat)
    requires Matches(shape, s) && IndexOf(s, Mark(shape)) == Some(m)
    ensures forall j | m < j < |s| :: IsDigit(s[j])
  {
    forall j | m < j < |s| ensures IsDigit(s[j]) {
      assert s[j] == s[m + 1..][j - m - 1];
    }
  }

  /** A decimal mark sits among the last three characters. */
  lemma MarkNearEnd(shape: Shape, s: string, i: nat)
    requires Matches(shape, s) && i < |s| && s[i] == Mark(shape)
    ensures |s| - 3 <= i < |s| - 1 && IndexOf(s, Mark(shape)) == Some(i)
  {
    AfterMark(shape, s, IndexOf(s, Mark(shape)).value);
  }

  /** Two different shapes match only a string of digits, and then both read it as whole units. */
  lemma ShapesOverlapOnDigits(a: Shape, b: Shape, s: string)
    requires Matches(a, s) && Matches(b, s) && a != b
    ensures Plain(s) && {a, b} == {DotDecimal, CommaDecimal}
  {
    GroupMark(a, s);
    GroupMark(b, s);
    MarkedOnce(a, b, s);
    MarkedOnce(b, a, s);
  }

  /** If a groups with one mark, b does not read the string. */
  lemma MarkedOnce(a: Shape, b: Shape, s: string)
    requires Matches(a, s) && Matches(b, s) && a != b
    ensures !(a.CommaGroups? || a.DotGroups?)
  {
    GroupMark(a, s);
    GroupMark(b, s);
    if a.CommaGroups? || a.DotGroups? {
      var i :| 0 <= i < |s| && s[i] == Grouping(a);
      assert Mark(b) == Grouping(a);
      MarkNearEnd(b, s, i);
      GroupedVersusMark(a, s, i);
    }
  }

  /** The grouping mark of a matched grouped shape occurs four characters before the end of the whole part, so never only near the end. */
  lemma GroupedVersusMark(a: Shape, s: string, i: nat)
    requires Matches(a, s) && (a.CommaGroups? || a.DotGroups?)
    requires IndexOf(s, Grouping(a)) == Some(i)
    ensures i < |s| - 3
  {
    var w := WholePart(a, s);
    GroupedTail(w, Grouping(a));
    assert w == s[..|w|];
    assert s[|w| - 4] == Grouping(a);
  }

  /** Whatever shapes a string matches, they give the same value; so the order in which they are tried does not matter. */
  lemma ShapesAgree(a: Shape, b: Shape, s: string)
    requires Matches(a, s) && Matches(b, s)
    ensures Minor(a, s) == Minor(b, s)
  {
    if a != b {
      ShapesOverlapOnDigits(a, b, s);
      PlainValue(a, s);
      PlainValue(b, s);
    }
  }

  lemma PlainValue(shape: Shape, s: string)
    requires Plain(s) && (shape.DotDecimal? || shape.CommaDecimal?) && Matches(shape, s)
    ensures Minor(shape, s) == Num(s) * 100 + Num(Padded(""))
  {
    assert IndexOf(s, Mark(shape)).None?;
    RemoveDigits(s, Grouping(shape));
  }

  // ------------------------------------------------------------------------- printing

  function Pad2(n: nat): (s: string)
    requires n < 100
    ensures |s| == 2 && Digits(s) && Num(s) == n
  {
    var s := [(n / 10) as char + '0', (n % 10) as char + '0'];
    TwoDigits(n);
    s
  }

  lemma TwoDigits(n: nat)
    requires n < 100
    ensures var s := [(n / 10) as char + '0', (n % 10) as char + '0']; Digits(s) && Num(s) == n
  {
    var s := [(n / 10) as char + '0', (n % 10) as char + '0'];
    assert s[..1] == [s[0]] && [s[0]][..0] == [];
    assert Num([s[0]]) == n / 10;
  }

  function Sign(minor: int): string { if minor < 0 then "-" else "" }

  function Abs(minor: int): nat { if minor < 0 then -minor else minor }

  /** A sign, a whole part and two decimals. */
  function Amount(sign: string, w: string, f: string): string {
    sign + (w + "." + f)
  }

  function DecimalString(minor: int): string {
    Amount(Sign(minor), Dec(Abs(minor) / 100), Pad2(Abs(minor) % 100))
  }

  /** A comma wherever the number of digits still to come is a multiple of three. */
  function WithCommas(digits: string): string {
    if |digits| <= 3 then digits else WithCommas(digits[..|digits| - 3]) + "," + digits[|digits| - 3..]
  }

  function Display(minor: int): string {
    "KES " + Amount(Sign(minor), WithCommas(Dec(Abs(minor) / 100)), Pad2(Abs(minor) % 100))
  }

  // ---------------------------------------------------------------------- round trips

  /** Grouping digits gives a plain short number or a grouped one, and removing the commas gives the digits back. */
  lemma {:induction false} CommasRead(d: string)
    requires Plain(d)
    ensures if |d| <= 3 then WithCommas(d) == d else Grouped(WithCommas(d), ',')
    ensures Remove(WithCommas(d), ',') == d
    decreases |d|
  {
    if |d| <= 3 {
      RemoveDigits(d, ',');
    } else {
      var k := |d| - 3;
      CommasRead(d[..k]);
      OneMoreGroup(WithCommas(d[..k]), d[..k], d[k..]);
      assert d == d[..k] + d[k..];
    }
  }

  /** Appending a comma and three digits to a short or grouped number. */
  lemma OneMoreGroup(head: string, digits: string, tail: string)
    requires |tail| == 3 && Digits(tail) && (Short(head) || Grouped(head, ',')) && Remove(head, ',') == digits
    ensures Grouped(head + "," + tail, ',') && Remove(head + "," + tail, ',') == digits + tail
  {
    var group := "," + tail;
    assert group[1..] == tail;
    var s := head + group;
    assert s == head + "," + tail;
    assert s[..|s| - 4] == head && s[|s| - 4..] == group;
    RemoveJoins(head, group, ',');
    RemoveTriple(group, ',');
  }

  /** The point of a printed amount is its first one. */
  lemma PointAt(w: string, f: string)
    requires forall i | 0 <= i < |w| :: w[i] == ',' || IsDigit(w[i])
    ensures var s := w + "." + f;
      IndexOf(s, '.') == Some(|w|) && s[..|w|] == w && s[|w| + 1..] == f
  {
    var s := w + "." + f;
    assert s[|w|] == '.';
    forall i | 0 <= i < |w| ensures s[i] != '.' {
      assert s[i] == w[i];
    }
  }

  /** A whole part, a point and two digits: the shape reads it, and it reads the number. */
  lemma ReadsWhole(shape: Shape, w: string, f: string)
    requires shape.CommaGroups? || shape.DotDecimal?
    requires WholeFits(shape, w, false) && |f| == 2 && Digits(f)
    ensures Matches(shape, w + "." + f)
    ensures Plain(Remove(w, ',')) && Minor(shape, w + "." + f) == Num(Remove(w, ',')) * 100 + Num(f)
  {
    WholeDigits(shape, w, false);
    NoDot(shape, w);
    PointAt(w, f);
    assert Padded(f) == f;
  }

  lemma NoDot(shape: Shape, w: string)
    requires (shape.CommaGroups? || shape.DotDecimal?) && WholeFits(shape, w, false)
    ensures forall i | 0 <= i < |w| :: w[i] == ',' || IsDigit(w[i])
  {
    if shape.CommaGroups? {
      GroupedHas(w, ',');
    }
  }

  lemma {:induction false} NoSpacesKeeps(s: string)
    requires forall i | 0 <= i < |s| :: !IsSpace(s[i])
    ensures NoSpaces(s) == s
  {
    if |s| > 0 {
      NoSpacesKeeps(s[..|s| - 1]);
      assert s == s[..|s| - 1] + [s[|s| - 1]];
    }
  }

  /** Any shape that matches gives the value. */
  lemma ReadIs(u: string, shape: Shape)
    requires Matches(shape, u)
    ensures Read(u) == Some(Minor(shape, u))
  {
    var first := ShapeOf(u).value;
    ShapesAgree(shape, first, u);
  }

  lemma SignedText(minor: int, u: string)
    requires |u| > 0 && u[0] != '-' && forall i | 0 <= i < |u| :: !IsSpace(u[i])
    ensures var s := Sign(minor) + u;
      NoSpaces(s) == s && Unsigned(s) == u && (s != u <==> minor < 0)
  {
    var s := Sign(minor) + u;
    NoSpacesKeeps(s);
    if minor < 0 {
      assert s[1..] == u && |s| == |u| + 1;
    } else {
      assert s == u;
    }
  }

  lemma AmountText(w: string, f: string)
    requires |w| > 0 && IsDigit(w[0]) && Digits(f) && forall i | 0 <= i < |w| :: w[i] == ',' || IsDigit(w[i])
    ensures var u := w + "." + f;
      |u| > 0 && u[0] != '-' && forall i | 0 <= i < |u| :: !IsSpace(u[i])
  {
    var u := w + "." + f;
    forall i | 0 <= i < |u| ensures !IsSpace(u[i]) {
      if i < |w| {
        assert u[i] == w[i];
      } else if i > |w| {
        assert u[i] == f[i - |w| - 1];
      }
    }
  }

  lemma AmountParses(minor: int, shape: Shape, w: string, f: string)
    requires shape.CommaGroups? || shape.DotDecimal?
    requires WholeFits(shape, w, false) && |w| > 0 && IsDigit(w[0]) && |f| == 2 && Digits(f)
    requires Plain(Remove(w, ',')) && Abs(minor) == Num(Remove(w, ',')) * 100 + Num(f)
    ensures Parse(Amount(Sign(minor), w, f)) == Ok(minor)
  {
    var u := w + "." + f;
    assert Read(u) == Some(Abs(minor)) by {
      ReadsWhole(shape, w, f);
      ReadIs(u, shape);
    }
    assert NoSpaces(Sign(minor) + u) == Sign(minor) + u && Unsigned(Sign(minor) + u) == u && (Sign(minor) + u != u <==> minor < 0) by {
      NoDot(shape, w);
      AmountText(w, f);
      SignedText(minor, u);
    }
  }

  /** Every amount survives printing as a decimal string and parsing. */
  lemma DecimalRoundTrip(minor: int)
    ensures Parse(DecimalString(minor)) == Ok(minor)
  {
    var w, f := Dec(Abs(minor) / 100), Pad2(Abs(minor) % 100);
    RemoveDigits(w, ',');
    AmountParses(minor, DotDecimal, w, f);
  }

  /** The display without its currency. */
  lemma DisplayAmount(minor: int)
    ensures Parse(Amount(Sign(minor), WithCommas(Dec(Abs(minor) / 100)), Pad2(Abs(minor) % 100))) == Ok(minor)
  {
    var d, f := Dec(Abs(minor) / 100), Pad2(Abs(minor) % 100);
    CommasRead(d);
    FirstDigit(d);
    AmountParses(minor, if |d| <= 3 then DotDecimal else CommaGroups, WithCommas(d), f);
  }

  /** And printing for display, once the currency is taken off the front. */
  lemma DisplayRoundTrip(minor: int)
    ensures |Display(minor)| >= 4 && Display(minor)[..4] == "KES "
    ensures Parse(Display(minor)[4..]) == Ok(minor)
  {
    DisplayAmount(minor);
    Prefixed("KES ", Amount(Sign(minor), WithCommas(Dec(Abs(minor) / 100)), Pad2(Abs(minor) % 100)));
  }

  lemma Prefixed(p: string, s: string)
    ensures (p + s)[..|p|] == p && (p + s)[|p|..] == s
  {
  }

  lemma {:induction false} FirstDigit(d: string)
    requires Plain(d)
    ensures |WithCommas(d)| > 0 && WithCommas(d)[0] == d[0]
    decreases |d|
  {
    if |d| > 3 {
      FirstDigit(d[..|d| - 3]);
    }
  }

  /** With the currency left on, a display string is not an amount. */
  lemma DisplayIsNotAnAmount(minor: int)
    ensures Parse(Display(minor)).Err?
  {
    var s := Display(minor);
    assert s[0] == 'K';
    FirstKept(s);
    forall shape ensures !Matches(shape, NoSpaces(s)) {
      if Matches(shape, NoSpaces(s)) {
        GroupMark(shape, NoSpaces(s));
      }
    }
  }

  lemma {:induction false} FirstKept(s: string)
    requires |s| > 0 && !IsSpace(s[0])
    ensures |NoSpaces(s)| > 0 && NoSpaces(s)[0] == s[0]
  {
    if |s| > 1 {
      FirstKept(s[..|s| - 1]);
    }
  }

  /** A single point before exactly three digits could be a group or a decimal: it is refused. */
  lemma AmbiguousPointRefused(a: string, b: string)
    requires Short(a) && |b| == 3 && Digits(b)
    ensures Parse(a + "." + b).Err?
  {
    var s := a + "." + b;
    NoSpacesKeeps(s);
    assert s[|a|] == '.' && s[..|a|] == a && s[|a| + 1..] == b;
    forall shape ensures !Matches(shape, s) {
      if Matches(shape, s) {
        GroupMark(shape, s);
        if Mark(shape) == '.' {
          MarkNearEnd(shape, s, |a|);
        } else {
          OneGroupOnly(s, a);
        }
      }
    }
  }

  lemma OneGroupOnly(s: string, a: string)
    requires |s| == |a| + 4 && Short(a) && s[..|a|] == a
    ensures !ManyGroups(s, '.')
  {
    if ManyGroups(s, '.') {
      GroupedHas(a, '.');
    }
  }

  // ----------------------------------------------------- which texts mean which amount

  /** Digits in groups of three from the right. */
  function Groups(d: string, sep: char): string {
    if |d| <= 3 then d else Groups(d[..|d| - 3], sep) + [sep] + d[|d| - 3..]
  }

  lemma {:induction false} GroupsRead(d: string, sep: char)
    requires Plain(d) && !IsDigit(sep)
    ensures |d| > 3 ==> Grouped(Groups(d, sep), sep)
    ensures |d| > 6 ==> ManyGroups(Groups(d, sep), sep)
    ensures Remove(Groups(d, sep), sep) == d
    decreases |d|
  {
    if |d| <= 3 {
      RemoveDigits(d, sep);
    } else {
      var k := |d| - 3;
      GroupsRead(d[..k], sep);
      AnotherGroup(Groups(d[..k], sep), d[..k], d[k..], sep);
      assert d == d[..k] + d[k..];
    }
  }

  lemma AnotherGroup(head: string, digits: string, tail: string, sep: char)
    requires |tail| == 3 && Digits(tail) && (Short(head) || Grouped(head, sep)) && Remove(head, sep) == digits && !IsDigit(sep)
    ensures Grouped(head + [sep] + tail, sep) && (Grouped(head, sep) ==> ManyGroups(head + [sep] + tail, sep))
    ensures Remove(head + [sep] + tail, sep) == digits + tail
  {
    var group := [sep] + tail;
    assert group[1..] == tail;
    var s := head + group;
    assert s == head + [sep] + tail;
    assert s[..|s| - 4] == head && s[|s| - 4..] == group;
    RemoveJoins(head, group, sep);
    RemoveTriple(group, sep);
  }

  /** One decimal is tenths, two are hundredths. */
  function Hundredths(f: string): nat
    requires Digits(f) && |f| <= 2
  {
    if |f| == 0 then 0 else if |f| == 1 then 10 * Num(f) else Num(f)
  }

  lemma PaddedIs(f: string)
    requires Digits(f) && |f| <= 2
    ensures Num(Padded(f)) == Hundredths(f)
  {
    var p := Padded(f);
    if |f| < 2 {
      assert p[1] == '0' && p[..1] == if |f| == 1 then f else "0";
      assert Num("0") == 0 by { assert "0"[..0] == ""; }
    } else {
      assert p == f;
    }
  }

  /** The text of an unsigned amount: a whole part, and the decimals after a mark, if there are any. */
  predicate Joins(s: string, w: string, mark: char, f: string) {
    if |f| == 0 then s == w else |s| == |w| + 1 + |f| && s[..|w|] == w && s[|w|] == mark && s[|w| + 1..] == f
  }

  lemma {:induction false} MarkFree(s: string, sep: char, d: string)
    requires Remove(s, sep) == d && Digits(d)
    ensures forall i | 0 <= i < |s| :: s[i] == sep || IsDigit(s[i])
  {
    if |s| > 0 {
      var n := |s| - 1;
      if s[n] != sep {
        assert d[..|d| - 1] == Remove(s[..n], sep) && d[|d| - 1] == s[n];
      } else {
        assert Remove(s[..n], sep) == d;
      }
      MarkFree(s[..n], sep, Remove(s[..n], sep));
    }
  }

  lemma JoinedParts(shape: Shape, s: string, w: string, d: string, f: string)
    requires Joins(s, w, Mark(shape), f) && Remove(w, Grouping(shape)) == d && Plain(d) && Digits(f)
    ensures |s| > 0
    ensures WholePart(shape, s) == w && FractionPart(shape, s) == f && (IndexOf(s, Mark(shape)).None? <==> |f| == 0)
    ensures forall i | 0 <= i < |s| :: s[i] in {'.', ','} || IsDigit(s[i])
  {
    MarkFree(w, Grouping(shape), d);
    forall i | 0 <= i < |s| ensures s[i] in {'.', ','} || IsDigit(s[i]) {
      if |f| > 0 && i < |w| {
        assert s[i] == w[i];
      } else if i > |w| {
        assert s[i] == s[|w| + 1..][i - |w| - 1];
      }
    }
    if |f| > 0 {
      forall i | 0 <= i < |w| ensures s[i] != Mark(shape) {
        assert s[i] == w[i];
      }
    }
  }

  /** What a text means with and without a minus sign. */
  lemma SignedMeans(t: string, s: string, minor: int)
    requires NoSpaces(t) == t && Unsigned(t) == s && (t != s <==> minor < 0)
    requires Read(s) == Some(Abs(minor))
    ensures Parse(t) == Ok(minor)
  {
  }

  lemma SignedCleaned(t: string, s: string, minor: int)
    requires t == if minor < 0 then "-" + s else s
    requires |s| > 0 && forall i | 0 <= i < |s| :: s[i] in {'.', ','} || IsDigit(s[i])
    ensures NoSpaces(t) == t && Unsigned(t) == s && (t != s <==> minor < 0)
  {
    assert t == Sign(minor) + s;
    SignedText(minor, s);
  }

  /** The shape reads the parts as digits and decimals. */
  ghost predicate Splits(shape: Shape, s: string, d: string, f: string) {
    && (IndexOf(s, Mark(shape)).None? <==> |f| == 0) && FractionPart(shape, s) == f && Digits(f) && |f| <= 2
    && WholeFits(shape, WholePart(shape, s), |f| == 0) && Remove(WholePart(shape, s), Grouping(shape)) == d && Plain(d)
  }

  lemma SplitsMatch(shape: Shape, s: string, d: string, f: string)
    requires Splits(shape, s, d, f)
    ensures Matches(shape, s)
  {
  }

  lemma MinorIs(shape: Shape, s: string, d: string, f: string)
    requires Splits(shape, s, d, f) && Matches(shape, s)
    ensures Plain(d) && Digits(f) && |f| <= 2 && Minor(shape, s) == Num(d) * 100 + Hundredths(f)
  {
    PaddedIs(f);
  }

  /**
   A spelling of digits d with up to two decimals f: plain with either decimal mark, in groups of three with commas and a point, or
   with dots and a comma. Without decimals, dots must group at least twice.
   */
  predicate Spells(s: string, d: string, f: string) {
    || Joins(s, d, '.', f) || Joins(s, d, ',', f)
    || (|d| > 3 && Joins(s, Groups(d, ','), '.', f))
    || (|d| > 3 && (|f| > 0 || |d| > 6) && Joins(s, Groups(d, '.'), ',', f))
  }

  lemma SpellingSplits(s: string, d: string, f: string) returns (shape: Shape)
    requires Plain(d) && Digits(f) && |f| <= 2 && Spells(s, d, f)
    ensures Splits(shape, s, d, f)
    ensures |s| > 0 && forall i | 0 <= i < |s| :: s[i] in {'.', ','} || IsDigit(s[i])
  {
    if Joins(s, d, '.', f) {
      shape := DotDecimal;
      RemoveDigits(d, ',');
      JoinedParts(shape, s, d, d, f);
    } else if Joins(s, d, ',', f) {
      shape := CommaDecimal;
      RemoveDigits(d, '.');
      JoinedParts(shape, s, d, d, f);
    } else if |d| > 3 && Joins(s, Groups(d, ','), '.', f) {
      shape := CommaGroups;
      GroupsRead(d, ',');
      JoinedParts(shape, s, Groups(d, ','), d, f);
    } else {
      shape := DotGroups;
      GroupsRead(d, '.');
      JoinedParts(shape, s, Groups(d, '.'), d, f);
    }
  }

  /** Every spelling of an amount, with a minus sign for a negative one, is read as that amount. */
  lemma SpellingsAgree(t: string, s: string, d: string, f: string, minor: int)
    requires Plain(d) && Digits(f) && |f| <= 2 && Abs(minor) == Num(d) * 100 + Hundredths(f)
    requires Spells(s, d, f) && t == if minor < 0 then "-" + s else s
    ensures Parse(t) == Ok(minor)
  {
    assert Read(s) == Some(Abs(minor)) && |s| > 0 && (forall i | 0 <= i < |s| :: s[i] in {'.', ','} || IsDigit(s[i])) by {
      var shape := SpellingSplits(s, d, f);
      SplitsMatch(shape, s, d, f);
      MinorIs(shape, s, d, f);
      ReadIs(s, shape);
    }
    assert NoSpaces(t) == t && Unsigned(t) == s && (t != s <==> minor < 0) by {
      SignedCleaned(t, s, minor);
    }
    SignedMeans(t, s, minor);
  }

  lemma {:induction false} NoSpacesJoins(a: string, b: string)
    ensures NoSpaces(a + b) == NoSpaces(a) + NoSpaces(b)
    decreases |b|
  {
    if |b| == 0 {
      assert a + b == a;
    } else {
      assert (a + b)[..|a + b| - 1] == a + b[..|b| - 1];
      NoSpacesJoins(a, b[..|b| - 1]);
    }
  }

  lemma CleanedAlike(x: string, y: string)
    requires NoSpaces(x) == NoSpaces(y)
    ensures Parse(x) == Parse(y)
  {
  }

  /** White space makes no difference anywhere. */
  lemma SpaceIgnored(a: string, space: string, b: string)
    requires Blank(space)
    ensures Parse(a + space + b) == Parse(a + b)
  {
    NoSpacesJoins(a + space, b);
    NoSpacesJoins(a, space);
    NoSpacesJoins(a, b);
    BlankGone(space);
    assert NoSpaces(a) + "" == NoSpaces(a);
    CleanedAlike(a + space + b, a + b);
  }

  lemma {:induction false} BlankGone(space: string)
    requires Blank(space)
    ensures NoSpaces(space) == ""
  {
    if |space| > 0 {
      BlankGone(space[..|space| - 1]);
    }
  }
}
