/** The Ruby string operations the protocol code relies on, restricted to ASCII:
    `downcase`, `upcase`, `capitalize`, `casecmp`, `tr('-', '_')`, `split('/').first`,
    `Integer#to_s` and `String#to_i`. */
module Text {
  import opened Outcomes

  function LowerChar(c: char): char {
    if 'A' <= c <= 'Z' then (c as int + 32) as char else c
  }

  function UpperChar(c: char): char {
    if 'a' <= c <= 'z' then (c as int - 32) as char else c
  }

  /** `downcase`: every ASCII capital replaced by its small letter. */
  function Lower(s: string): string {
    seq(|s|, i requires 0 <= i < |s| => LowerChar(s[i]))
  }

  /** `upcase`: every ASCII small letter replaced by its capital. */
  function Upper(s: string): string {
    seq(|s|, i requires 0 <= i < |s| => UpperChar(s[i]))
  }

  /** `tr('-', '_')`: every hyphen replaced by an underscore. */
  function Tr(s: string): string {
    seq(|s|, i requires 0 <= i < |s| => if s[i] == '-' then '_' else s[i])
  }

  /** `map { |c| c.tr('-', '_') }`. */
  function MapTr(xs: seq<string>): seq<string> {
    seq(|xs|, i requires 0 <= i < |xs| => Tr(xs[i]))
  }

  /** The command normalisation the dispatchers use: `downcase.tr('-', '_')`. */
  function Normalize(s: string): string {
    Tr(Lower(s))
  }

  /** `a.casecmp(b).zero?`: equal up to ASCII case. */
  predicate CaseEq(a: string, b: string) {
    Lower(a) == Lower(b)
  }

  /** `any? { |p| x.casecmp(p).zero? }` over a list. */
  predicate AnyCaseEq(x: string, xs: seq<string>) {
    exists i :: 0 <= i < |xs| && CaseEq(x, xs[i])
  }

  /** `capitalize`: first character upper-cased, the rest lower-cased. */
  function Capitalize(s: string): (r: string)
    ensures |r| == |s|
    ensures s != [] ==> r[0] == UpperChar(s[0]) && r[1..] == Lower(s[1..])
  {
    if s == [] then [] else [UpperChar(s[0])] + Lower(s[1..])
  }

  /** `casecmp` as an integer: -1, 0 or 1 comparing the case-folded strings. */
  function CaseCmp(a: string, b: string): (r: int)
    ensures -1 <= r <= 1
    ensures r == 0 <==> CaseEq(a, b)
  {
    CompareFolded(Lower(a), Lower(b))
  }

  function CompareFolded(a: string, b: string): (r: int)
    ensures -1 <= r <= 1
    ensures r == 0 <==> a == b
  {
    if a == [] && b == [] then 0
    else if a == [] then -1
    else if b == [] then 1
    else if a[0] < b[0] then -1
    else if a[0] > b[0] then 1
    else
      var r := CompareFolded(a[1..], b[1..]);
      assert r == 0 <==> a[1..] == b[1..];
      assert a == [a[0]] + a[1..] && b == [b[0]] + b[1..];
      r
  }

  lemma LowerIdempotent(s: string)
    ensures Lower(Lower(s)) == Lower(s)
  {
  }

  lemma LowerOfTr(s: string)
    ensures Lower(Tr(s)) == Tr(Lower(s))
  {
  }

  /** A normalised command name is its own normal form, and normalising is idempotent. */
  lemma NormalizeIdempotent(s: string)
    ensures Normalize(Normalize(s)) == Normalize(s)
    ensures Lower(Normalize(s)) == Normalize(s)
  {
    var l := Lower(s);
    assert Lower(Tr(l)) == Tr(l);
    assert Tr(Tr(l)) == Tr(l);
  }

  /** Down-casing an up-cased string gives the down-cased string. */
  lemma LowerOfUpper(s: string)
    ensures Lower(Upper(s)) == Lower(s)
  {
    forall i | 0 <= i < |s| ensures Lower(Upper(s))[i] == Lower(s)[i] {
      assert Upper(s)[i] == UpperChar(s[i]);
    }
  }

  lemma UpperIdempotent(s: string)
    ensures Upper(Upper(s)) == Upper(s)
  {
  }

  /** Two strings are equal ignoring case iff they upper-case to the same string. */
  lemma CaseEqIffUpper(a: string, b: string)
    ensures CaseEq(a, b) <==> Upper(a) == Upper(b)
  {
    if CaseEq(a, b) {
      assert |a| == |b|;
      forall i | 0 <= i < |a| ensures Upper(a)[i] == Upper(b)[i] {
        assert Lower(a)[i] == Lower(b)[i];
      }
    }
    if Upper(a) == Upper(b) {
      assert |a| == |b|;
      forall i | 0 <= i < |a| ensures Lower(a)[i] == Lower(b)[i] {
        assert Upper(a)[i] == Upper(b)[i];
      }
    }
  }

  /** `casecmp` equality is an equivalence. */
  lemma CaseEqEquivalence(a: string, b: string, c: string)
    ensures CaseEq(a, a)
    ensures CaseEq(a, b) ==> CaseEq(b, a)
    ensures CaseEq(a, b) && CaseEq(b, c) ==> CaseEq(a, c)
  {
  }

  predicate AllSlashes(s: string) {
    forall i :: 0 <= i < |s| ==> s[i] == '/'
  }

  /** `k` is the position of the first slash of `s`. */
  predicate FirstSlash(s: string, k: int) {
    0 <= k < |s| && s[k] == '/' && '/' !in s[..k]
  }

  lemma {:induction false} FirstSlashExists(s: string)
    requires '/' in s
    ensures exists k :: FirstSlash(s, k)
  {
    if s[0] == '/' {
      assert FirstSlash(s, 0);
    } else {
      FirstSlashExists(s[1..]);
      var k :| FirstSlash(s[1..], k);
      assert s[..k + 1] == [s[0]] + s[1..][..k];
      assert FirstSlash(s, k + 1);
    }
  }

  /** Index of the first slash, or the length when there is none. */
  function SlashIndex(s: string): (k: nat)
    ensures k <= |s|
  {
    if '/' in s then
      FirstSlashExists(s);
      var k :| FirstSlash(s, k); k
    else |s|
  }

  /** `split('/').first`: the text before the first slash; nil when the string holds nothing
      but slashes (Ruby's `split` drops trailing empty fields, so nothing is left). */
  function BeforeSlash(s: string): Option<string> {
    if AllSlashes(s) then None else Some(s[..SlashIndex(s)])
  }

  /** The cut is nil exactly for an all-slash string, and otherwise the slash-free prefix that
      ends at the first slash or at the end of the string. */
  lemma BeforeSlashCuts(s: string)
    ensures BeforeSlash(s).None? <==> AllSlashes(s)
    ensures BeforeSlash(s).Some? ==> '/' !in BeforeSlash(s).value && BeforeSlash(s).value <= s
    ensures BeforeSlash(s).Some? && |BeforeSlash(s).value| < |s| ==> s[|BeforeSlash(s).value|] == '/'
  {
  }

  lemma BeforeSlashWithoutSlash(s: string)
    requires s != [] && '/' !in s
    ensures BeforeSlash(s) == Some(s)
  {
    assert s[0] != '/';
    assert s[..|s|] == s;
  }

  /** The cut at a slash preceded by a slash-free, non-empty prefix. */
  lemma BeforeSlashAt(s: string, k: nat)
    requires 0 < k < |s| && s[k] == '/' && '/' !in s[..k]
    ensures BeforeSlash(s) == Some(s[..k])
  {
    assert s[0] != '/' by { assert s[0] == s[..k][0]; }
    assert FirstSlash(s, k);
  }

  // ---------------------------------------------------------------- numbers

  predicate IsDigit(c: char) {
    '0' <= c <= '9'
  }

  function DigitChar(d: nat): char
    requires d < 10
  {
    ('0' as int + d) as char
  }

  /** `Integer#to_s` for a natural number. */
  function NatToString(n: nat): (r: string)
    ensures |r| > 0
    ensures forall i :: 0 <= i < |r| ==> IsDigit(r[i])
    decreases n
  {
    if n < 10 then [DigitChar(n)] else NatToString(n / 10) + [DigitChar(n % 10)]
  }

  /** The value of a run of decimal digits. */
  function DigitsValue(ds: string): nat
    requires forall i :: 0 <= i < |ds| ==> IsDigit(ds[i])
  {
    if ds == [] then 0
    else
      assert IsDigit(ds[|ds| - 1]);
      DigitsValue(ds[..|ds| - 1]) * 10 + (ds[|ds| - 1] as int - '0' as int)
  }

  /** The leading digits of `t`, where a single underscore between two digits is skipped. */
  function DigitRun(t: string): (r: string)
    ensures forall i :: 0 <= i < |r| ==> IsDigit(r[i])
    ensures |r| <= |t|
  {
    if |t| == 0 || !IsDigit(t[0]) then []
    else if |t| >= 3 && t[1] == '_' && IsDigit(t[2]) then [t[0]] + DigitRun(t[2..])
    else [t[0]] + DigitRun(t[1..])
  }

  predicate IsSpace(c: char) {
    c == ' ' || c == '\t' || c == '\n' || c == '\r' || c == '\U{C}' || c == '\U{B}'
  }

  function SkipSpace(s: string): (r: string)
    ensures |r| <= |s| && r == s[|s| - |r|..]
    ensures r != [] ==> !IsSpace(r[0])
  {
    if s != [] && IsSpace(s[0]) then SkipSpace(s[1..]) else s
  }

  /** The optional `0d` or `0D` radix prefix of a base-10 number, skipped when a digit follows. */
  function SkipDecimalPrefix(t: string): (r: string)
    ensures r == t || (|t| >= 3 && r == t[2..])
  {
    if |t| >= 3 && t[0] == '0' && (t[1] == 'd' || t[1] == 'D') && IsDigit(t[2]) then t[2..] else t
  }

  /** The value of the digits at the head of the text after the sign. */
  function Magnitude(t: string): nat {
    DigitsValue(DigitRun(SkipDecimalPrefix(t)))
  }

  /** `String#to_i`: optional leading white space and sign, an optional `0d` prefix, then
      decimal digits; 0 when none. */
  function ToI(s: string): int {
    var t := SkipSpace(s);
    if |t| > 0 && t[0] == '-' then -(Magnitude(t[1..]) as int)
    else if |t| > 0 && t[0] == '+' then Magnitude(t[1..])
    else Magnitude(t)
  }

  /** After a `0d` or `0D` prefix, the digits are read as they stand. */
  lemma MagnitudeOfPrefixed(t: string, ds: string)
    requires ds != [] && (forall i :: 0 <= i < |ds| ==> IsDigit(ds[i]))
    requires |t| == |ds| + 2 && t[0] == '0' && (t[1] == 'd' || t[1] == 'D') && t[2..] == ds
    ensures Magnitude(t) == DigitsValue(ds)
  {
    assert IsDigit(t[2]) by { assert t[2] == ds[0]; }
    DigitRunOfDigits(ds);
  }

  /** Text that starts with neither white space nor a sign is read as a magnitude. */
  lemma ToIUnsigned(t: string)
    requires t != [] && !IsSpace(t[0]) && t[0] != '-' && t[0] != '+'
    ensures ToI(t) == Magnitude(t)
  {
    assert SkipSpace(t) == t;
  }

  /** A sign in front of such text negates the magnitude or keeps it. */
  lemma ToISigned(t: string)
    requires t != [] && !IsSpace(t[0]) && t[0] != '-' && t[0] != '+'
    ensures ToI(['+'] + t) == Magnitude(t) && ToI(['-'] + t) == -(Magnitude(t) as int)
  {
    var plus, minus := ['+'] + t, ['-'] + t;
    assert SkipSpace(plus) == plus && SkipSpace(minus) == minus;
    assert plus[1..] == t && minus[1..] == t;
  }

  /** The `0d` prefix is read past, with or without a sign: `"0d1".to_i == 1`. */
  lemma ToIDecimalPrefix(t: string, ds: string)
    requires ds != [] && (forall i :: 0 <= i < |ds| ==> IsDigit(ds[i]))
    requires |t| == |ds| + 2 && t[0] == '0' && (t[1] == 'd' || t[1] == 'D') && t[2..] == ds
    ensures ToI(t) == DigitsValue(ds)
    ensures ToI(['+'] + t) == DigitsValue(ds) && ToI(['-'] + t) == -(DigitsValue(ds) as int)
  {
    MagnitudeOfPrefixed(t, ds);
    ToIUnsigned(t);
    ToISigned(t);
  }

  lemma {:induction false} DigitRunOfDigits(ds: string)
    requires forall i :: 0 <= i < |ds| ==> IsDigit(ds[i])
    ensures DigitRun(ds) == ds
    decreases |ds|
  {
    if ds != [] {
      DigitRunOfDigits(ds[1..]);
    }
  }

  lemma {:induction false} NatToStringValue(n: nat)
    ensures DigitsValue(NatToString(n)) == n
    decreases n
  {
    if n >= 10 {
      var r := NatToString(n);
      assert r[..|r| - 1] == NatToString(n / 10);
      NatToStringValue(n / 10);
    }
  }

  /** A run of digits has no `0d` prefix to skip. */
  lemma NoDecimalPrefix(ds: string)
    requires forall i :: 0 <= i < |ds| ==> IsDigit(ds[i])
    ensures SkipDecimalPrefix(ds) == ds
  {
    if |ds| >= 3 {
      assert IsDigit(ds[1]);
    }
  }

  /** A plain run of digits reads back as its value. */
  lemma ToIOfDigits(ds: string)
    requires ds != [] && forall i :: 0 <= i < |ds| ==> IsDigit(ds[i])
    ensures ToI(ds) == DigitsValue(ds)
  {
    assert IsDigit(ds[0]);
    ToIUnsigned(ds);
    NoDecimalPrefix(ds);
    DigitRunOfDigits(ds);
  }

  /** Round trip: `n.to_s.to_i == n`. */
  lemma ToIOfNatToString(n: nat)
    ensures ToI(NatToString(n)) == n
  {
    ToIOfDigits(NatToString(n));
    NatToStringValue(n);
  }

  /** The message of the ArgumentError raised when a method taking `least` to `most` arguments
      is called with `given`. Ruby's own text names the counts; when the method carries a
      Contracts-library contract and receives surplus arguments, the contract check fails first
      and raises with its own text. */
  function ArityMessage(given: nat, least: nat, most: nat, contracted: bool): (r: string)
    requires least <= most
    requires given < least || given > most
    ensures !contracted || given < least ==> r != CONTRACT_VIOLATION
  {
    if contracted && given > most then CONTRACT_VIOLATION
    else
      "wrong number of arguments (given " + NatToString(given) + ", expected "
        + (if least == most then NatToString(least) else NatToString(least) + ".." + NatToString(most))
        + ")"
  }
}
