/**
 Characters and lengths of texts, as the Rust sources test them.
 */
module Texts {

  /** `char::is_control`. */
  predicate IsControl(c: char) {
    c < ' ' || '\U{007f}' <= c <= '\U{009f}'
  }

  /** `char::is_whitespace`. */
  predicate IsWhitespace(c: char) {
    || '\t' <= c <= '\r' || '\U{2000}' <= c <= '\U{200A}'
    || c in " \U{0085}\U{00A0}\U{1680}\U{2028}\U{2029}\U{202F}\U{205F}\U{3000}"
  }

  /** `text.trim().is_empty()`. */
  predicate IsBlankText(s: string) {
    forall i :: 0 <= i < |s| ==> IsWhitespace(s[i])
  }

  predicate IsAlphanumeric(c: char) {
    '0' <= c <= '9' || 'a' <= c <= 'z' || 'A' <= c <= 'Z'
  }

  predicate IsHexDigit(c: char) {
    '0' <= c <= '9' || 'a' <= c <= 'f' || 'A' <= c <= 'F'
  }

  /** `str::len`: bytes in UTF-8. */
  function Utf8Length(s: string): nat {
    if s == [] then 0
    else
      var c := s[0] as int;
      (if c < 0x80 then 1 else if c < 0x800 then 2 else if c < 0x1_0000 then 3 else 4) + Utf8Length(s[1..])
  }

  /** One to four bytes for a character, by the ranges of UTF-8. */
  lemma CharacterLength(c: char)
    ensures Utf8Length([c]) == if c <= '\U{7F}' then 1 else if c <= '\U{7FF}' then 2
                               else if c <= '\U{FFFF}' then 3 else 4
  {
    assert [c][1..] == [];
  }

  lemma {:induction false} LengthAdds(s: string, t: string)
    ensures Utf8Length(s + t) == Utf8Length(s) + Utf8Length(t)
  {
    if s == [] {
      assert s + t == t;
    } else {
      LengthAdds(s[1..], t);
      assert (s + t)[1..] == s[1..] + t;
    }
  }

  lemma {:induction false} AsciiLength(s: string)
    requires forall c :: c in s ==> c <= '\U{7F}'
    ensures Utf8Length(s) == |s|
  {
    if s != [] {
      assert s == [s[0]] + s[1..];
      assert s[0] in s && forall c :: c in s[1..] ==> c in s;
      AsciiLength(s[1..]);
    }
  }

  lemma Strip(a: string, b: string, x: string, y: string)
    requires |a| == |b| && a + x == b + y
    ensures a == b && x == y
  {
    assert a == (a + x)[..|a|] && b == (b + y)[..|b|];
    assert x == (a + x)[|a|..] && y == (b + y)[|b|..];
  }

  /** `join(",")`. */
  function Joined(ids: seq<string>): string {
    if ids == [] then "" else if |ids| == 1 then ids[0] else ids[0] + "," + Joined(ids[1..])
  }

  /** Texts that end at the first mark can be told from what follows. */
  lemma FirstMark(mark: char, a: string, b: string, x: string, y: string)
    requires mark !in a && mark !in b && a + [mark] + x == b + [mark] + y
    ensures a == b && x == y
  {
    var l, r := a + [mark] + x, b + [mark] + y;
    assert l[|a|] == mark && forall i :: 0 <= i < |a| ==> l[i] == a[i] && a[i] in a;
    assert r[|b|] == mark && forall i :: 0 <= i < |b| ==> r[i] == b[i] && b[i] in b;
    assert |a| == |b|;
    assert a == l[..|a|] && b == r[..|b|];
    assert x == l[|a| + 1..] && y == r[|b| + 1..];
  }

  /** A non-empty text without a comma. */
  predicate IsListed(id: string) {
    id != "" && ',' !in id
  }

  lemma JoinedHead(ids: seq<string>)
    requires |ids| >= 2
    ensures ',' in Joined(ids) && Joined(ids) == ids[0] + [','] + Joined(ids[1..])
  {
    assert Joined(ids)[|ids[0]|] == ',';
  }

  /** A list of such texts can be read back. */
  lemma {:induction false} JoinedUnique(a: seq<string>, b: seq<string>)
    requires (forall id :: id in a ==> IsListed(id)) && (forall id :: id in b ==> IsListed(id))
    requires Joined(a) == Joined(b)
    ensures a == b
  {
    if |a| >= 2 { JoinedHead(a); } else if |a| == 1 { assert a[0] in a && a == [a[0]]; }
    if |b| >= 2 { JoinedHead(b); } else if |b| == 1 { assert b[0] in b && b == [b[0]]; }
    if |a| >= 2 && |b| >= 2 {
      assert a[0] in a && b[0] in b;
      FirstMark(',', a[0], b[0], Joined(a[1..]), Joined(b[1..]));
      JoinedUnique(a[1..], b[1..]);
      assert a == [a[0]] + a[1..] && b == [b[0]] + b[1..];
    } else if a != [] && b != [] {
      assert a[0] in a && b[0] in b;
    }
  }

  // ------------------------------------------------------------------ decimal numbers

  function Digit(n: nat): char
    requires n < 10
  {
    "0123456789"[n]
  }

  function Decimal(n: nat): (s: string)
    ensures s != []
  {
    if n < 10 then [Digit(n)] else Decimal(n / 10) + [Digit(n % 10)]
  }

  ghost predicate AllDigits(s: string) {
    forall i :: 0 <= i < |s| ==> '0' <= s[i] <= '9'
  }

  lemma {:induction false} DecimalDigits(n: nat)
    ensures AllDigits(Decimal(n))
  {
    if n >= 10 { DecimalDigits(n / 10); }
  }

  lemma DigitUnique(m: nat, n: nat)
    requires m < 10 && n < 10 && Digit(m) == Digit(n)
    ensures m == n
  {
  }

  /** Different numbers are written differently. */
  lemma {:induction false} DecimalUnique(m: nat, n: nat)
    requires Decimal(m) == Decimal(n)
    ensures m == n
  {
    var s, t := Decimal(m), Decimal(n);
    assert s[|s| - 1] == Digit(m % 10) && t[|t| - 1] == Digit(n % 10);
    DigitUnique(m % 10, n % 10);
    assert m >= 10 <==> |s| >= 2;
    assert n >= 10 <==> |t| >= 2;
    if m >= 10 {
      assert s[..|s| - 1] == Decimal(m / 10) && t[..|t| - 1] == Decimal(n / 10);
      DecimalUnique(m / 10, n / 10);
    }
  }
}
