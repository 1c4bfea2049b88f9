/** Character classes, whitespace stripping, decimal numerals and the small pattern matcher
    that stands for the regular expressions of the dialog scanner.

    A pattern is a sequence of pieces; each piece is matched greedily (a repeated atom takes
    the longest run it can) and never gives characters back. For the dialog patterns this is
    the same as Python's `re.fullmatch`, because every repeated atom in them is followed
    either by the end of the pattern or by an atom whose first character cannot belong to
    the repeated class. */
module Lexing {
  import opened Wrappers

  /** Python's `str.isspace`, which is also the set `\s` matches in a `str` pattern and the
      set `str.strip()` removes. */
  predicate IsSpace(c: char) {
    var n := c as int;
    (9 <= n <= 13) || (28 <= n <= 32) || n == 0x85 || n == 0xA0 || n == 0x1680
    || (0x2000 <= n <= 0x200A) || n == 0x2028 || n == 0x2029 || n == 0x202F
    || n == 0x205F || n == 0x3000
  }

  /** `\d`, restricted to the ASCII digits. */
  predicate IsDigit(c: char) {
    '0' <= c <= '9'
  }

  /** `\w`, restricted to ASCII letters, digits and the underscore. */
  predicate IsWordChar(c: char) {
    'a' <= c <= 'z' || 'A' <= c <= 'Z' || IsDigit(c) || c == '_'
  }

  predicate AllSpace(s: string) {
    forall k :: 0 <= k < |s| ==> IsSpace(s[k])
  }

  predicate AllDigits(s: string) {
    forall k :: 0 <= k < |s| ==> IsDigit(s[k])
  }

  predicate AllWordChars(s: string) {
    forall k :: 0 <= k < |s| ==> IsWordChar(s[k])
  }

  // ---------------------------------------------------------------------------------------
  // str.strip()
  // ---------------------------------------------------------------------------------------

  /** `s` without its leading whitespace. */
  function TrimStart(s: string): (r: string)
    ensures |r| <= |s| && r == s[|s| - |r|..]
    ensures AllSpace(s[..|s| - |r|])
    ensures r == [] || !IsSpace(r[0])
  {
    if |s| > 0 && IsSpace(s[0]) then
      var r := TrimStart(s[1..]);
      LeadingSpace(s, r);
      r
    else s
  }

  /** A space in front of what TrimStart leaves of the rest joins the stripped prefix. */
  lemma LeadingSpace(s: string, r: string)
    requires |s| > 0 && IsSpace(s[0])
    requires |r| <= |s| - 1 && r == s[1..][|s| - 1 - |r|..] && AllSpace(s[1..][..|s| - 1 - |r|])
    ensures r == s[|s| - |r|..] && AllSpace(s[..|s| - |r|])
  {
    forall k | 0 <= k < |s| - |r| ensures IsSpace(s[k]) {
      if k > 0 { assert s[k] == s[1..][..|s| - 1 - |r|][k - 1]; }
    }
  }

  /** `s` without its trailing whitespace. */
  function TrimEnd(s: string): (r: string)
    ensures |r| <= |s| && r == s[..|r|]
    ensures AllSpace(s[|r|..])
    ensures r == [] || !IsSpace(r[|r| - 1])
  {
    if |s| > 0 && IsSpace(s[|s| - 1]) then
      var r := TrimEnd(s[..|s| - 1]);
      TrailingSpace(s, r);
      r
    else s
  }

  /** A space after what TrimEnd leaves of the rest joins the stripped suffix. */
  lemma TrailingSpace(s: string, r: string)
    requires |s| > 0 && IsSpace(s[|s| - 1])
    requires |r| <= |s| - 1 && r == s[..|s| - 1][..|r|] && AllSpace(s[..|s| - 1][|r|..])
    ensures r == s[..|r|] && AllSpace(s[|r|..])
  {
    forall k | |r| <= k < |s| ensures IsSpace(s[k]) {
      if k < |s| - 1 { assert s[k] == s[..|s| - 1][|r|..][k - |r|]; }
    }
  }

  /** Python's `str.strip()` with no argument: the line without surrounding whitespace. */
  function Strip(s: string): (r: string)
    ensures |r| <= |s|
    ensures r == [] || (!IsSpace(r[0]) && !IsSpace(r[|r| - 1]))
  {
    TrimEnd(TrimStart(s))
  }

  /** With only spaces before `a` and no space at `a`, TrimStart cuts at `a`. */
  lemma {:induction false} TrimStartAt(s: string, a: nat)
    requires a <= |s| && AllSpace(s[..a])
    requires a == |s| || !IsSpace(s[a])
    ensures TrimStart(s) == s[a..]
    decreases a
  {
    if a > 0 {
      assert s[..a][0] == s[0];
      assert s[1..][..a - 1] == s[..a][1..];
      TrimStartAt(s[1..], a - 1);
      assert s[1..][a - 1..] == s[a..];
    }
  }

  /** With only spaces from `c` on and no space just before `c`, TrimEnd cuts at `c`. */
  lemma {:induction false} TrimEndAt(t: string, c: nat)
    requires c <= |t| && AllSpace(t[c..])
    requires c == 0 || !IsSpace(t[c - 1])
    ensures TrimEnd(t) == t[..c]
    decreases |t| - c
  {
    if c < |t| {
      assert t[c..][|t| - 1 - c] == t[|t| - 1];
      var t' := t[..|t| - 1];
      assert t'[c..] == t[c..][..|t| - 1 - c];
      TrimEndAt(t', c);
      assert t'[..c] == t[..c];
    }
  }

  /** Strip removes exactly the surrounding whitespace: any split of `s` into spaces, a
      part that neither starts nor ends with a space, and spaces, yields that part. */
  lemma StripExact(s: string, a: nat, b: nat)
    requires a <= b <= |s|
    requires AllSpace(s[..a]) && AllSpace(s[b..])
    requires a == b || (!IsSpace(s[a]) && !IsSpace(s[b - 1]))
    ensures Strip(s) == s[a..b]
  {
    if a == b {
      SpacesJoin(s, a);
      StripBlank(s);
    } else {
      StripAround(s, a, b);
    }
  }

  lemma StripBlank(s: string)
    requires AllSpace(s[..|s|])
    ensures Strip(s) == []
  {
    TrimStartAt(s, |s|);
  }

  lemma StripAround(s: string, a: nat, b: nat)
    requires a < b <= |s|
    requires AllSpace(s[..a]) && AllSpace(s[b..])
    requires !IsSpace(s[a]) && !IsSpace(s[b - 1])
    ensures Strip(s) == s[a..b]
  {
    TrimStartAt(s, a);
    var t := s[a..];
    assert AllSpace(t[b - a..]) by {
      assert t[b - a..] == s[b..];
    }
    assert !IsSpace(t[b - a - 1]) by {
      assert t[b - a - 1] == s[b - 1];
    }
    TrimEndAt(t, b - a);
    assert t[..b - a] == s[a..b];
  }

  lemma SpacesJoin(s: string, a: nat)
    requires a <= |s| && AllSpace(s[..a]) && AllSpace(s[a..])
    ensures AllSpace(s[..|s|])
  {
    forall k | 0 <= k < |s| ensures IsSpace(s[k]) {
      if k < a { assert s[..a][k] == s[k]; } else { assert s[a..][k - a] == s[k]; }
    }
  }

  /** Stripping twice is stripping once. */
  lemma StripIdempotent(s: string)
    ensures Strip(Strip(s)) == Strip(s)
  {
    var r := Strip(s);
    StripExact(r, 0, |r|);
  }

  // ---------------------------------------------------------------------------------------
  // Decimal numerals: what float() yields for `[+-]?\d+[.]\d+`
  // ---------------------------------------------------------------------------------------

  function DigitValue(c: char): (d: nat)
    ensures d <= 9
  {
    if IsDigit(c) then c as int - '0' as int else 0
  }

  /** The value of a numeral, most significant digit first. */
  function DigitsValue(ds: string): nat
    decreases |ds|
  {
    if ds == [] then 0 else 10 * DigitsValue(ds[..|ds| - 1]) + DigitValue(ds[|ds| - 1])
  }

  /** The value of the digits after a decimal point, `.d1 d2 d3` being (d1 + (d2 + d3/10)/10)/10;
      it is never one or more. */
  function FractionValue(ds: string): (v: real)
    ensures 0.0 <= v < 1.0
    decreases |ds|
  {
    if ds == [] then 0.0 else (DigitValue(ds[0]) as real + FractionValue(ds[1..])) / 10.0
  }

  /** The real number written `ip.fp`, whose whole part is the number written `ip`. */
  function PointValue(ip: string, fp: string): (v: real)
    ensures DigitsValue(ip) as real <= v < DigitsValue(ip) as real + 1.0
  {
    DigitsValue(ip) as real + FractionValue(fp)
  }

  /** A numeral of the form `[+-]?\d+[.]\d+`, split into its parts. */
  datatype Numeral = Numeral(sign: string, whole: string, fraction: string)
  {
    predicate Valid() {
      && (sign == "" || sign == "+" || sign == "-")
      && whole != [] && AllDigits(whole)
      && fraction != [] && AllDigits(fraction)
    }

    function Text(): string {
      sign + whole + "." + fraction
    }

    /** What float() gives for the numeral's text. */
    function Value(): real {
      if sign == "-" then -PointValue(whole, fraction) else PointValue(whole, fraction)
    }
  }

  /** A numeral's text is at least three characters long, starts with a sign or a digit
      (a digit when unsigned) and ends with a digit. */
  lemma NumeralEdges(n: Numeral)
    requires n.Valid()
    ensures |n.Text()| >= 3 && IsDigit(n.Text()[|n.Text()| - 1])
    ensures !IsSpace(n.Text()[0]) && (n.sign == "" ==> IsDigit(n.Text()[0]))
  {
    var t := n.Text();
    assert t[|t| - 1] == n.fraction[|n.fraction| - 1];
    if n.sign == "" {
      assert t[0] == n.whole[0];
    } else {
      assert t[0] == n.sign[0];
    }
  }

  /** The maximal run of `cls` characters from `i` ends at `j` when every character in
      between is in the class and the one at `j` (if any) is not. */
  lemma RunEndAt(s: string, i: nat, cls: CharClass, j: nat)
    requires i <= j <= |s|
    requires forall k :: i <= k < j ==> InClass(cls, s[k])
    requires j == |s| || !InClass(cls, s[j])
    ensures RunEnd(s, i, cls) == j
  {
  }

  /** Text `x + y` written at `i` is `x` at `i` followed by `y`. */
  lemma SliceSplit(s: string, i: nat, x: string, y: string)
    requires i + |x + y| <= |s| && s[i..i + |x + y|] == x + y
    ensures s[i..i + |x|] == x && s[i + |x|..i + |x| + |y|] == y
  {
    assert s[i..i + |x|] == s[i..i + |x + y|][..|x|];
    assert s[i + |x|..i + |x| + |y|] == s[i..i + |x + y|][|x|..];
  }

  /** Digits written at `i` and not followed by a digit are one maximal run. */
  lemma DigitsAt(s: string, i: nat, ds: string)
    requires i + |ds| <= |s| && s[i..i + |ds|] == ds && AllDigits(ds)
    requires i + |ds| == |s| || !IsDigit(s[i + |ds|])
    ensures RunEnd(s, i, Digit) == i + |ds|
  {
    forall k | i <= k < i + |ds| ensures InClass(Digit, s[k]) {
      assert s[i..i + |ds|][k - i] == s[k];
    }
    RunEndAt(s, i, Digit, i + |ds|);
  }

  /** Digits, a point and digits written at `i`, not followed by a digit, are scanned whole. */
  lemma ScanPointAt(s: string, i: nat, whole: string, fraction: string)
    requires whole != [] && AllDigits(whole) && fraction != [] && AllDigits(fraction)
    requires i + |whole + "." + fraction| <= |s|
    requires s[i..i + |whole + "." + fraction|] == whole + "." + fraction
    requires i + |whole + "." + fraction| == |s| || !IsDigit(s[i + |whole + "." + fraction|])
    ensures ScanPoint(s, i) == Some((i + |whole + "." + fraction|, PointValue(whole, fraction)))
  {
    var dot := i + |whole|;
    SliceSplit(s, i, whole + ".", fraction);
    SliceSplit(s, i, whole, ".");
    assert s[dot] == s[dot..dot + 1][0];
    DigitsAt(s, i, whole);
    DigitsAt(s, dot + 1, fraction);
  }

  /** A numeral written at `i` and not followed by a digit is scanned whole, with the value
      float() gives it. */
  lemma ScanNumeral(s: string, i: nat, n: Numeral, signed: bool)
    requires n.Valid() && (signed || n.sign == "")
    requires i + |n.Text()| <= |s| && s[i..i + |n.Text()|] == n.Text()
    requires i + |n.Text()| == |s| || !IsDigit(s[i + |n.Text()|])
    ensures ScanDecimal(s, i, signed) == Some((i + |n.Text()|, n.Value()))
  {
    NumeralSplit(s, i, n);
    var start := i + |n.sign|;
    ScanPointAt(s, start, n.whole, n.fraction);
    if n.sign == "" {
      UnsignedNumeral(s, i, n, signed);
    } else {
      SignedNumeral(s, i, n);
    }
  }

  /** A numeral written at `i` is its sign followed by its unsigned part. */
  lemma NumeralSplit(s: string, i: nat, n: Numeral)
    requires n.Valid()
    requires i + |n.Text()| <= |s| && s[i..i + |n.Text()|] == n.Text()
    ensures |n.Text()| == |n.sign| + |n.whole + "." + n.fraction|
    ensures s[i..i + |n.sign|] == n.sign
    ensures s[i + |n.sign|..i + |n.Text()|] == n.whole + "." + n.fraction
    ensures s[i + |n.sign|..i + |n.sign| + |n.whole|] == n.whole
  {
    var body := n.whole + "." + n.fraction;
    assert n.Text() == n.sign + body;
    SliceSplit(s, i, n.sign, body);
    WholeFirst(s, i + |n.sign|, n.whole, n.fraction);
  }

  /** The whole part of `whole.fraction` written at `i` is written at `i`. */
  lemma WholeFirst(s: string, i: nat, whole: string, fraction: string)
    requires i + |whole + "." + fraction| <= |s| && s[i..i + |whole + "." + fraction|] == whole + "." + fraction
    ensures s[i..i + |whole|] == whole
  {
    var t := whole + "." + fraction;
    assert t[..|whole|] == whole;
    assert s[i..i + |whole|] == s[i..i + |t|][..|whole|];
  }

  /** The unsigned case of `ScanNumeral`, once the point has been scanned. */
  lemma UnsignedNumeral(s: string, i: nat, n: Numeral, signed: bool)
    requires n.Valid() && n.sign == ""
    requires i + |n.Text()| <= |s| && s[i..i + |n.whole|] == n.whole
    requires ScanPoint(s, i) == Some((i + |n.whole + "." + n.fraction|, PointValue(n.whole, n.fraction)))
    ensures ScanDecimal(s, i, signed) == Some((i + |n.Text()|, n.Value()))
  {
    assert IsDigit(s[i]) by {
      assert s[i] == s[i..i + |n.whole|][0];
    }
    DecimalUnsigned(s, i, signed);
  }

  /** The signed case of `ScanNumeral`, once the point after the sign has been scanned. */
  lemma SignedNumeral(s: string, i: nat, n: Numeral)
    requires n.Valid() && n.sign != ""
    requires i + |n.Text()| <= |s| && s[i..i + |n.sign|] == n.sign
    requires ScanPoint(s, i + 1) == Some((i + 1 + |n.whole + "." + n.fraction|, PointValue(n.whole, n.fraction)))
    ensures ScanDecimal(s, i, true) == Some((i + |n.Text()|, n.Value()))
  {
    assert s[i] == n.sign[0] by {
      assert s[i] == s[i..i + 1][0];
    }
    DecimalSigned(s, i);
  }

  /** A decimal that starts with a digit is scanned as an unsigned one. */
  lemma DecimalUnsigned(s: string, i: nat, signed: bool)
    requires i < |s| && IsDigit(s[i])
    ensures ScanDecimal(s, i, signed) == ScanPoint(s, i)
  {
  }

  /** A sign in front of a decimal negates it when it is a minus. */
  lemma DecimalSigned(s: string, i: nat)
    requires i < |s| && (s[i] == '+' || s[i] == '-')
    ensures ScanDecimal(s, i, true) ==
            match ScanPoint(s, i + 1)
            case None => None
            case Some(p) => Some((p.0, if s[i] == '-' then -p.1 else p.1))
  {
  }

  // ---------------------------------------------------------------------------------------
  // Patterns
  // ---------------------------------------------------------------------------------------

  datatype CharClass = Space | WordChar | Digit

  predicate InClass(cls: CharClass, c: char) {
    match cls
    case Space => IsSpace(c)
    case WordChar => IsWordChar(c)
    case Digit => IsDigit(c)
  }

  /** One element of a regular expression: literal text, exactly one character of a class
      (`\s`), one or more of a class (`\s+`, `\w+`, `\d+`) or one character of a set
      (`[NS]`). */
  datatype Atom =
    | Lit(text: string)
    | One(cls: CharClass)
    | Many(cls: CharClass)
    | OneOf(chars: string)

  /** A piece of a pattern: an atom outside any group, a capturing group of atoms, or a
      captured decimal `([+-]?\d+[.]\d+)` (signed) or `(\d+[.]\d+)` (unsigned), which is
      handed to `float()` as soon as it is captured. */
  datatype Piece =
    | Skip(atom: Atom)
    | Group(atoms: seq<Atom>)
    | Decimal(signed: bool)

  datatype Capture = Text(text: string) | Number(value: real)

  /** The end of the longest run of `cls` characters starting at `i`. */
  function RunEnd(s: string, i: nat, cls: CharClass): (j: nat)
    requires i <= |s|
    ensures i <= j <= |s|
    ensures forall k :: i <= k < j ==> InClass(cls, s[k])
    ensures j == |s| || !InClass(cls, s[j])
    decreases |s| - i
  {
    if i < |s| && InClass(cls, s[i]) then RunEnd(s, i + 1, cls) else i
  }

  /** Where `a`, matched at `i`, ends; None when it does not match there. */
  function ScanAtom(a: Atom, s: string, i: nat): (r: Option<nat>)
    requires i <= |s|
    ensures r.Some? ==> i <= r.value <= |s|
  {
    match a
    case Lit(t) => if i + |t| <= |s| && s[i..i + |t|] == t then Some(i + |t|) else None
    case One(cls) => if i < |s| && InClass(cls, s[i]) then Some(i + 1) else None
    case Many(cls) => var j := RunEnd(s, i, cls); if i < j then Some(j) else None
    case OneOf(cs) => if i < |s| && s[i] in cs then Some(i + 1) else None
  }

  function ScanAtoms(atoms: seq<Atom>, s: string, i: nat): (r: Option<nat>)
    requires i <= |s|
    ensures r.Some? ==> i <= r.value <= |s|
    decreases |atoms|
  {
    if atoms == [] then Some(i)
    else match ScanAtom(atoms[0], s, i)
      case None => None
      case Some(j) => ScanAtoms(atoms[1..], s, j)
  }

  /** `\d+[.]\d+` at `i`: where it ends and its value. */
  function ScanPoint(s: string, i: nat): (r: Option<(nat, real)>)
    requires i <= |s|
    ensures r.Some? ==> i < r.value.0 <= |s| && r.value.1 >= 0.0
  {
    var dot := RunEnd(s, i, Digit);
    if dot == i || dot == |s| || s[dot] != '.' then None
    else
      var end := RunEnd(s, dot + 1, Digit);
      if end == dot + 1 then None
      else Some((end, PointValue(s[i..dot], s[dot + 1..end])))
  }

  /** `[+-]?\d+[.]\d+` (or `\d+[.]\d+` when unsigned) at `i`: where it ends and the value
      float() gives the captured text. */
  function ScanDecimal(s: string, i: nat, signed: bool): (r: Option<(nat, real)>)
    requires i <= |s|
    ensures r.Some? ==> i < r.value.0 <= |s|
    ensures r.Some? && !signed ==> r.value.1 >= 0.0
  {
    if signed && i < |s| && (s[i] == '+' || s[i] == '-') then
      match ScanPoint(s, i + 1)
      case None => None
      case Some(p) => Some((p.0, if s[i] == '-' then -p.1 else p.1))
    else ScanPoint(s, i)
  }

  /** What a pattern captures, in order. */
  datatype Kind = TextKind | SignedKind | UnsignedKind

  function Kinds(ps: seq<Piece>): seq<Kind>
    decreases |ps|
  {
    if ps == [] then []
    else
      (match ps[0]
       case Skip(_) => []
       case Group(_) => [TextKind]
       case Decimal(signed) => [if signed then SignedKind else UnsignedKind])
      + Kinds(ps[1..])
  }

  /** What one piece captures. */
  function KindsOf(p: Piece): seq<Kind>
  {
    Kinds([p])
  }

  predicate FitsKind(c: Capture, k: Kind) {
    match k
    case TextKind => c.Text?
    case SignedKind => c.Number?
    case UnsignedKind => c.Number? && c.value >= 0.0
  }

  predicate Fits(caps: seq<Capture>, kinds: seq<Kind>) {
    |caps| == |kinds| && forall k :: 0 <= k < |caps| ==> FitsKind(caps[k], kinds[k])
  }

  lemma FitsConcat(c: seq<Capture>, k: seq<Kind>, caps: seq<Capture>, kinds: seq<Kind>)
    requires Fits(c, k) && Fits(caps, kinds)
    ensures Fits(c + caps, k + kinds)
  {
    forall n | 0 <= n < |c| + |caps| ensures FitsKind((c + caps)[n], (k + kinds)[n]) {
      if n >= |c| {
        assert (c + caps)[n] == caps[n - |c|];
        assert (k + kinds)[n] == kinds[n - |c|];
      }
    }
  }

  /** One piece matched at `i`: where it ends and what it captures. */
  function ScanPiece(p: Piece, s: string, i: nat): (r: Option<(nat, seq<Capture>)>)
    requires i <= |s|
    ensures r.Some? ==> i <= r.value.0 <= |s| && Fits(r.value.1, KindsOf(p))
  {
    assert [p][0] == p && [p][1..] == [] && Kinds([p][1..]) == [];
    match p
    case Skip(a) =>
      (match ScanAtom(a, s, i) case None => None case Some(j) => Some((j, [])))
    case Group(atoms) =>
      (match ScanAtoms(atoms, s, i) case None => None case Some(j) => Some((j, [Text(s[i..j])])))
    case Decimal(signed) =>
      (match ScanDecimal(s, i, signed)
       case None => None
       case Some(jv) => Some((jv.0, [Number(jv.1)])))
  }

  /** The pieces `ps` matched from `i` to the end of `s`, and what their groups and
      decimals capture, in order. */
  function MatchFrom(ps: seq<Piece>, s: string, i: nat): (r: Option<seq<Capture>>)
    requires i <= |s|
    ensures r.Some? ==> |ps| > 0 || i == |s|
    decreases |ps|
  {
    if ps == [] then (if i == |s| then Some([]) else None)
    else match ScanPiece(ps[0], s, i)
      case None => None
      case Some(jc) =>
        match MatchFrom(ps[1..], s, jc.0)
        case None => None
        case Some(rest) => Some(jc.1 + rest)
  }

  /** What a match captures has the kinds the pattern promises: one text per group, one
      number per decimal, never negative where the decimal is unsigned. */
  lemma {:induction false} MatchKinds(ps: seq<Piece>, s: string, i: nat)
    requires i <= |s|
    ensures MatchFrom(ps, s, i).Some? ==> Fits(MatchFrom(ps, s, i).value, Kinds(ps))
    decreases |ps|
  {
    if ps != [] {
      match ScanPiece(ps[0], s, i)
      case None =>
      case Some(jc) =>
        MatchKinds(ps[1..], s, jc.0);
        match MatchFrom(ps[1..], s, jc.0)
        case None =>
        case Some(rest) =>
          FitsConcat(jc.1, KindsOf(ps[0]), rest, Kinds(ps[1..]));
    }
  }

  /** One piece matched, then the rest of the pattern: the captures join in order. */
  lemma MatchStep(ps: seq<Piece>, s: string, i: nat, j: nat, c: seq<Capture>,
                  rest: seq<Capture>)
    requires ps != [] && i <= |s| && j <= |s|
    requires ScanPiece(ps[0], s, i) == Some((j, c))
    requires MatchFrom(ps[1..], s, j) == Some(rest)
    ensures MatchFrom(ps, s, i) == Some(c + rest)
  {
  }

  /** `re.fullmatch`: the whole of `s` must match. */
  function FullMatch(ps: seq<Piece>, s: string): Option<seq<Capture>>
  {
    MatchFrom(ps, s, 0)
  }

  /** A pattern that opens with literal text cannot match a line that differs from that
      text at position `k`. */
  lemma LeadingLitMismatch(ps: seq<Piece>, s: string, t: string, k: nat)
    requires ps != [] && ps[0] == Skip(Lit(t))
    requires k < |t| && (k >= |s| || s[k] != t[k])
    ensures FullMatch(ps, s) == None
  {
    if |t| <= |s| {
      assert s[0..|t|][k] == s[k];
    }
  }

  /** A pattern that is one literal matches that literal and nothing else. */
  lemma SingleLitMatch(s: string, t: string)
    ensures FullMatch([Skip(Lit(t))], s).Some? <==> s == t
  {
    var ps := [Skip(Lit(t))];
    assert ps[1..] == [];
    if s == t {
      assert s[0..|t|] == t;
      assert ScanAtom(Lit(t), s, 0) == Some(|t|);
      assert ScanPiece(ps[0], s, 0) == Some((|t|, []));
      assert MatchFrom(ps[1..], s, |t|) == Some([]);
      assert MatchFrom(ps, s, 0) == Some([] + []);
    }
    if FullMatch(ps, s).Some? {
      assert ScanAtom(Lit(t), s, 0) == Some(|t|);
      assert MatchFrom(ps[1..], s, |t|).Some?;
      assert |s| == |t|;
      assert s[0..|t|] == s;
    }
  }

  // ---------------------------------------------------------------------------------------
  // Matching a line written piece by piece
  // ---------------------------------------------------------------------------------------

  lemma ScanLitAt(s: string, i: nat, t: string)
    requires i + |t| <= |s| && s[i..i + |t|] == t
    ensures ScanPiece(Skip(Lit(t)), s, i) == Some((i + |t|, []))
  {
  }

  /** One space where the pattern has `\s` or `\s+`, not followed by another space. */
  lemma ScanSpaceAt(s: string, i: nat)
    requires i < |s| && IsSpace(s[i]) && (i + 1 == |s| || !IsSpace(s[i + 1]))
    ensures ScanPiece(Skip(Many(Space)), s, i) == Some((i + 1, []))
    ensures ScanPiece(Skip(One(Space)), s, i) == Some((i + 1, []))
  {
    RunEndAt(s, i, Space, i + 1);
  }

  lemma ScanOneOfAt(s: string, i: nat, cs: string)
    requires i < |s| && s[i] in cs
    ensures ScanPiece(Skip(OneOf(cs)), s, i) == Some((i + 1, []))
  {
  }

  lemma ScanNumeralAt(s: string, i: nat, n: Numeral, signed: bool)
    requires n.Valid() && (signed || n.sign == "")
    requires i + |n.Text()| <= |s| && s[i..i + |n.Text()|] == n.Text()
    requires i + |n.Text()| == |s| || !IsDigit(s[i + |n.Text()|])
    ensures ScanPiece(Decimal(signed), s, i) == Some((i + |n.Text()|, [Number(n.Value())]))
  {
    ScanNumeral(s, i, n, signed);
  }

  /** A word where the pattern has `(\w+)`, not followed by another word character. */
  lemma ScanWordAt(s: string, i: nat, w: string)
    requires w != [] && AllWordChars(w)
    requires i + |w| <= |s| && s[i..i + |w|] == w
    requires i + |w| == |s| || !IsWordChar(s[i + |w|])
    ensures ScanPiece(Group([Many(WordChar)]), s, i) == Some((i + |w|, [Text(w)]))
  {
    forall k | i <= k < i + |w| ensures InClass(WordChar, s[k]) {
      assert s[i..i + |w|][k - i] == s[k];
    }
    RunEndAt(s, i, WordChar, i + |w|);
    assert ScanAtoms([Many(WordChar)], s, i) == Some(i + |w|);
  }

  // A line matched piece by piece from the left: each lemma takes the remainder `s[i..]`
  // as what the next piece consumes followed by what is left for the rest of the pattern.

  lemma EndThen(s: string)
    ensures MatchFrom([], s, |s|) == Some([])
  {
  }

  lemma LitThen(ps: seq<Piece>, s: string, i: nat, t: string, y: string)
    requires ps != [] && ps[0] == Skip(Lit(t)) && i <= |s| && s[i..] == t + y
    ensures i + |t| <= |s| && s[i + |t|..] == y
    ensures MatchFrom(ps, s, i) == MatchFrom(ps[1..], s, i + |t|)
  {
    assert s[i..][..|t|] == t && s[i..][|t|..] == y;
    assert s[i..i + |t|] == t;
    ScanLitAt(s, i, t);
    match MatchFrom(ps[1..], s, i + |t|)
    case None =>
    case Some(rest) => assert [] + rest == rest;
  }

  /** One blank where the pattern has `\s+`, followed by a character that is not one. */
  lemma SpaceThen(ps: seq<Piece>, s: string, i: nat, y: string)
    requires ps != [] && ps[0] == Skip(Many(Space)) && i <= |s| && s[i..] == " " + y
    requires y != [] && !IsSpace(y[0])
    ensures i + 1 <= |s| && s[i + 1..] == y
    ensures MatchFrom(ps, s, i) == MatchFrom(ps[1..], s, i + 1)
  {
    assert s[i..][0] == ' ' && s[i..][1] == y[0] && s[i..][1..] == y;
    ScanSpaceAt(s, i);
    match MatchFrom(ps[1..], s, i + 1)
    case None =>
    case Some(rest) => assert [] + rest == rest;
  }

  /** One of the characters of `cs`, where the pattern has `[cs]`. */
  lemma OneOfThen(ps: seq<Piece>, s: string, i: nat, c: char, cs: string, y: string)
    requires ps != [] && ps[0] == Skip(OneOf(cs)) && c in cs && i <= |s| && s[i..] == [c] + y
    ensures i + 1 <= |s| && s[i + 1..] == y
    ensures MatchFrom(ps, s, i) == MatchFrom(ps[1..], s, i + 1)
  {
    assert s[i..][0] == c && s[i..][1..] == y;
    ScanOneOfAt(s, i, cs);
    match MatchFrom(ps[1..], s, i + 1)
    case None =>
    case Some(rest) => assert [] + rest == rest;
  }

  /** What is left after `x`, when `x + y` is what is left at `i`. */
  lemma SuffixSplit(s: string, i: nat, x: string, y: string)
    requires i <= |s| && s[i..] == x + y
    ensures i + |x| <= |s| && s[i + |x|..] == y
  {
    assert s[i..][|x|..] == y;
  }

  /** A numeral where the pattern has a decimal, followed by a character that is not a
      digit: the decimal captures the numeral's value. */
  lemma NumberAt(p: Piece, s: string, i: nat, n: Numeral, y: string)
    requires p.Decimal? && n.Valid() && (p.signed || n.sign == "")
    requires i <= |s| && s[i..] == n.Text() + y && (y == [] || !IsDigit(y[0]))
    ensures i + |n.Text()| <= |s| && s[i + |n.Text()|..] == y
    ensures ScanPiece(p, s, i) == Some((i + |n.Text()|, [Number(n.Value())]))
  {
    var t := n.Text();
    assert s[i..][..|t|] == t && s[i..][|t|..] == y;
    assert s[i..i + |t|] == t;
    if y != [] {
      assert s[i + |t|] == s[i..][|t|] == y[0];
    }
    ScanNumeralAt(s, i, n, p.signed);
  }
}
