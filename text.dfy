/** String helpers the modelled components rely on from their languages' runtimes:
    decimal printing (`str(n)`, template literals), JavaScript's `parseInt`,
    `String.prototype.trim`, `split` on one character and `includes`. */
module Text {
  import opened Wrappers

  predicate IsDigit(c: char) { '0' <= c <= '9' }

  function DigitValue(c: char): nat
    requires IsDigit(c)
  {
    (c as int) - ('0' as int)
  }

  function DigitChar(d: nat): (c: char)
    requires d < 10
    ensures IsDigit(c) && DigitValue(c) == d
  {
    ('0' as int + d) as char
  }

  predicate AllDigits(s: string) {
    forall i :: 0 <= i < |s| ==> IsDigit(s[i])
  }

  /** Decimal text of `n`, as Python's `str` and JavaScript's template literals print it. */
  function NatToString(n: nat): (s: string)
    ensures 1 <= |s| && AllDigits(s)
    ensures s[0] == '0' <==> n == 0
    ensures |s| > 1 ==> s[0] != '0'
  {
    if n < 10 then [DigitChar(n)] else NatToString(n / 10) + [DigitChar(n % 10)]
  }

  function IntToString(i: int): (s: string)
    ensures 1 <= |s|
  {
    if i < 0 then "-" + NatToString(-i) else NatToString(i)
  }

  /** The value of a non-empty run of decimal digits, read left to right. */
  function DigitsValue(s: string): nat
    requires AllDigits(s)
  {
    if s == [] then 0 else DigitsValue(s[..|s| - 1]) * 10 + DigitValue(s[|s| - 1])
  }

  lemma {:induction false} DigitsValueOfNatToString(n: nat)
    ensures DigitsValue(NatToString(n)) == n
  {
    if n >= 10 {
      var s := NatToString(n);
      assert s[..|s| - 1] == NatToString(n / 10);
      DigitsValueOfNatToString(n / 10);
    }
  }

  /** Number of leading decimal digits of `s`. */
  function DigitRun(s: string): (k: nat)
    ensures k <= |s| && AllDigits(s[..k])
    ensures k < |s| ==> !IsDigit(s[k])
  {
    if s != [] && IsDigit(s[0]) then
      var k := 1 + DigitRun(s[1..]);
      assert s[..k] == [s[0]] + s[1..][..k - 1];
      k
    else 0
  }

  lemma {:induction false} DigitRunOfDigits(s: string)
    requires AllDigits(s)
    ensures DigitRun(s) == |s|
  {
    if s != [] {
      DigitRunOfDigits(s[1..]);
    }
  }

  predicate IsHexDigit(c: char) {
    IsDigit(c) || 'a' <= c <= 'f' || 'A' <= c <= 'F'
  }

  function HexValue(c: char): nat
    requires IsHexDigit(c)
  {
    if IsDigit(c) then DigitValue(c)
    else if 'a' <= c <= 'f' then (c as int) - ('a' as int) + 10
    else (c as int) - ('A' as int) + 10
  }

  /** The value of the leading hexadecimal digits of `s` and how many there are. */
  function HexRun(s: string, acc: nat): (r: (nat, nat))
    ensures r.1 <= |s|
  {
    if s != [] && IsHexDigit(s[0]) then
      var rest := HexRun(s[1..], acc * 16 + HexValue(s[0]));
      (rest.0, rest.1 + 1)
    else (acc, 0)
  }

  /** The white space that `trim` removes and `parseInt` skips: the ECMAScript
      WhiteSpace and LineTerminator code points. */
  predicate IsSpace(c: char) {
    c == ' ' || c == '\t' || c == '\n' || c == '\r' || c == '\U{B}' || c == '\U{C}'
    || c == '\U{A0}' || c == '\U{1680}' || ('\U{2000}' <= c <= '\U{200A}')
    || c == '\U{2028}' || c == '\U{2029}' || c == '\U{202F}' || c == '\U{205F}'
    || c == '\U{3000}' || c == '\U{FEFF}'
  }

  /** `s` without its leading white space: only white space is removed. */
  function TrimStart(s: string): (r: string)
    ensures |r| <= |s| && r == s[|s| - |r|..]
    ensures r != [] ==> !IsSpace(r[0])
    ensures forall i :: 0 <= i < |s| - |r| ==> IsSpace(s[i])
  {
    if s != [] && IsSpace(s[0]) then
      var r := TrimStart(s[1..]);
      assert forall i :: 1 <= i < |s| - |r| ==> s[i] == s[1..][i - 1];
      r
    else s
  }

  /** `s` without its trailing white space: only white space is removed. */
  function TrimEnd(s: string): (r: string)
    ensures |r| <= |s| && r == s[..|r|]
    ensures r != [] ==> !IsSpace(r[|r| - 1])
    ensures forall i :: |r| <= i < |s| ==> IsSpace(s[i])
  {
    if s != [] && IsSpace(s[|s| - 1]) then
      var r := TrimEnd(s[..|s| - 1]);
      assert forall i :: |r| <= i < |s| - 1 ==> s[i] == s[..|s| - 1][i];
      r
    else s
  }

  /** JavaScript's `String.prototype.trim`. */
  function Trim(s: string): string {
    TrimEnd(TrimStart(s))
  }

  /** The digits that follow `parseInt`'s sign: a `0x`/`0X` prefix selects
      hexadecimal, otherwise the longest run of decimal digits is read; no
      digit at all gives `None`. */
  function ParseMagnitude(body: string): Option<nat>
  {
    if |body| >= 2 && body[0] == '0' && (body[1] == 'x' || body[1] == 'X') then
      var h := HexRun(body[2..], 0);
      if h.1 == 0 then None else Some(h.0)
    else
      var k := DigitRun(body);
      if k == 0 then None else Some(DigitsValue(body[..k]))
  }

  /** JavaScript's `parseInt(s)` with no radix: leading white space is skipped,
      one sign is read and the magnitude follows; `NaN` is `None`. */
  function ParseInt(s: string): (r: Option<int>)
  {
    var t := TrimStart(s);
    var negative := t != [] && t[0] == '-';
    var body := if t != [] && (t[0] == '-' || t[0] == '+') then t[1..] else t;
    match ParseMagnitude(body)
    case None => None
    case Some(m) => Some(if negative then -(m as int) else m as int)
  }

  lemma ParseMagnitudeOfNatToString(n: nat)
    ensures ParseMagnitude(NatToString(n)) == Some(n)
  {
    var digits := NatToString(n);
    DigitRunOfDigits(digits);
    assert digits[..|digits|] == digits;
    DigitsValueOfNatToString(n);
  }

  /** `parseInt` reads back every integer that `IntToString` prints. */
  lemma ParseIntRoundTrip(i: int)
    ensures ParseInt(IntToString(i)) == Some(i)
  {
    var m: nat := if i < 0 then -i else i;
    ParseMagnitudeOfNatToString(m);
    var s := IntToString(i);
    assert !IsSpace(s[0]);
    assert TrimStart(s) == s;
    if i < 0 {
      assert s[1..] == NatToString(m);
    }
  }

  /** JavaScript's `s.split(sep)` for a one-character separator. */
  function Split(s: string, sep: char): (parts: seq<string>)
    ensures |parts| >= 1
    ensures forall p :: p in parts ==> sep !in p
    ensures JoinWith(parts, sep) == s
  {
    if s == [] then [""]
    else
      var rest := Split(s[1..], sep);
      if s[0] == sep then [""] + rest
      else
        var parts := [[s[0]] + rest[0]] + rest[1..];
        assert parts[1..] == rest[1..];
        parts
  }

  /** Joins non-empty `parts`, putting `sep` between neighbours. */
  function JoinWith(parts: seq<string>, sep: char): string
    requires |parts| >= 1
  {
    if |parts| == 1 then parts[0] else parts[0] + [sep] + JoinWith(parts[1..], sep)
  }

  /** Python's `sep.join(parts)` (an empty list gives the empty string). */
  function Join(parts: seq<string>, sep: char): string {
    if parts == [] then "" else JoinWith(parts, sep)
  }

  /** A first part free of `sep` is glued to the first part of the rest. */
  lemma {:induction false} SplitPrefix(p: string, rest: string, sep: char)
    requires sep !in p
    ensures Split(p + rest, sep) == [p + Split(rest, sep)[0]] + Split(rest, sep)[1..]
  {
    var s := Split(rest, sep);
    if p == [] {
      assert p + rest == rest && p + s[0] == s[0];
      assert s == [s[0]] + s[1..];
    } else {
      assert p[0] in p;
      assert (p + rest)[0] == p[0] && (p + rest)[1..] == p[1..] + rest;
      assert forall c :: c in p[1..] ==> c in p;
      SplitPrefix(p[1..], rest, sep);
      var r := Split(p[1..] + rest, sep);
      assert r[0] == p[1..] + s[0] && r[1..] == s[1..];
      assert Split(p + rest, sep) == [[p[0]] + r[0]] + r[1..];
      assert [p[0]] + (p[1..] + s[0]) == p + s[0];
    }
  }

  /** Splitting at `sep` undoes joining with `sep` when no part contains it. */
  lemma {:induction false} SplitJoinWith(parts: seq<string>, sep: char)
    requires |parts| >= 1 && forall p :: p in parts ==> sep !in p
    ensures Split(JoinWith(parts, sep), sep) == parts
  {
    if |parts| == 1 {
      SplitPrefix(parts[0], "", sep);
      assert parts[0] + "" == parts[0];
    } else {
      assert forall p :: p in parts[1..] ==> p in parts;
      SplitJoinWith(parts[1..], sep);
      var tail := [sep] + JoinWith(parts[1..], sep);
      assert tail[0] == sep && tail[1..] == JoinWith(parts[1..], sep);
      assert Split(tail, sep) == [""] + parts[1..];
      assert parts[0] + [sep] + JoinWith(parts[1..], sep) == parts[0] + tail;
      SplitPrefix(parts[0], tail, sep);
      assert parts[0] + "" == parts[0];
      assert ([""] + parts[1..])[1..] == parts[1..];
      assert [parts[0]] + parts[1..] == parts;
    }
  }

  /** Printed integers hold no space. */
  lemma IntToStringNoSpace(i: int)
    ensures ' ' !in IntToString(i)
  {
    var s := IntToString(i);
    if i < 0 {
      assert forall k :: 1 <= k < |s| ==> s[k] == NatToString(-i)[k - 1];
    }
  }

  /** Printed integers hold only digits and a leading minus. */
  lemma IntToStringDigits(i: int)
    ensures forall c :: c in IntToString(i) ==> c == '-' || IsDigit(c)
  {
    var s := IntToString(i);
    if i < 0 {
      assert forall k :: 1 <= k < |s| ==> s[k] == NatToString(-i)[k - 1];
    }
  }

  /** `trim` leaves a string alone exactly when it neither starts nor ends
      with white space. */
  lemma TrimFixed(s: string)
    ensures Trim(s) == s <==> s == [] || (!IsSpace(s[0]) && !IsSpace(s[|s| - 1]))
  {
    if s != [] && !IsSpace(s[0]) && !IsSpace(s[|s| - 1]) {
      assert TrimStart(s) == s;
      assert TrimEnd(s) == s;
    }
    if Trim(s) == s && s != [] {
      var t := TrimStart(s);
      assert |TrimEnd(t)| <= |t| <= |s|;
      assert t == s[|s| - |t|..] && |t| == |s|;
      assert t == s;
    }
  }

  /** Splitting at a separator between two strings splits each side. */
  lemma {:induction false} SplitAppend(a: string, b: string, sep: char)
    ensures Split(a + [sep] + b, sep) == Split(a, sep) + Split(b, sep)
  {
    var s := a + [sep] + b;
    if a == [] {
      assert s[0] == sep && s[1..] == b;
    } else {
      assert s[0] == a[0] && s[1..] == a[1..] + [sep] + b;
      SplitAppend(a[1..], b, sep);
    }
  }

  /** Lines joined with a separator are trimmed when the first line does
      not start and the last line does not end with white space. */
  lemma JoinTrimmed(parts: seq<string>, sep: char)
    requires |parts| >= 1 && parts[0] != [] && parts[|parts| - 1] != []
    requires !IsSpace(parts[0][0]) && !IsSpace(parts[|parts| - 1][|parts[|parts| - 1]| - 1])
    ensures Trim(JoinWith(parts, sep)) == JoinWith(parts, sep)
  {
    var text := JoinWith(parts, sep);
    var last := parts[|parts| - 1];
    assert text != [] && text[0] == parts[0][0] && text[|text| - 1] == last[|last| - 1] by {
      JoinWithEnds(parts, sep);
    }
    TrimFixed(text);
  }

  /** A join starts with its first part and ends with its last. */
  lemma {:induction false} JoinWithEnds(parts: seq<string>, sep: char)
    requires |parts| >= 1
    ensures var j := JoinWith(parts, sep); var l := parts[|parts| - 1];
      && |j| >= |parts[0]| && j[..|parts[0]|] == parts[0]
      && |j| >= |l| && j[|j| - |l|..] == l
      && (|parts| > 1 ==> |j| > |l| && j[|j| - |l| - 1] == sep)
  {
    if |parts| > 1 {
      JoinWithEnds(parts[1..], sep);
      var j := JoinWith(parts, sep);
      var rest := JoinWith(parts[1..], sep);
      assert j == parts[0] + ([sep] + rest);
      assert j[|j| - |rest|..] == rest;
      assert j[|j| - |rest| - 1] == sep;
    }
  }

  /** Every character of a join is the separator or comes from a part. */
  lemma {:induction false} JoinWithChars(parts: seq<string>, sep: char)
    requires |parts| >= 1
    ensures forall c :: c in JoinWith(parts, sep) ==> c == sep || exists p :: p in parts && c in p
  {
    if |parts| > 1 {
      JoinWithChars(parts[1..], sep);
      assert forall p :: p in parts[1..] ==> p in parts;
    }
  }

  /** `sub` occurs in `s` starting at index `i`. */
  predicate OccursAt(s: string, sub: string, i: int) {
    0 <= i && i + |sub| <= |s| && s[i..i + |sub|] == sub
  }

  /** JavaScript's `s.includes(sub)`. */
  function Includes(s: string, sub: string): (r: bool)
    ensures r <==> exists i :: OccursAt(s, sub, i)
  {
    if |sub| <= |s| && s[..|sub|] == sub then
      assert OccursAt(s, sub, 0);
      true
    else if |sub| > |s| then false
    else
      var r := Includes(s[1..], sub);
      OccursAfterFirst(s, sub);
      r
  }

  /** When `sub` does not start `s`, it occurs in `s` exactly when it occurs
      in `s` without its first character. */
  lemma OccursAfterFirst(s: string, sub: string)
    requires |sub| <= |s| && s[..|sub|] != sub
    ensures (exists i :: OccursAt(s, sub, i)) <==> (exists i :: OccursAt(s[1..], sub, i))
  {
    if exists i :: OccursAt(s, sub, i) {
      var i :| OccursAt(s, sub, i);
      assert s[0..|sub|] == s[..|sub|];
      assert i != 0;
      assert s[1..][i - 1..i - 1 + |sub|] == s[i..i + |sub|];
      assert OccursAt(s[1..], sub, i - 1);
    }
    if exists i :: OccursAt(s[1..], sub, i) {
      var i :| OccursAt(s[1..], sub, i);
      assert s[1..][i..i + |sub|] == s[i + 1..i + 1 + |sub|];
      assert OccursAt(s, sub, i + 1);
    }
  }
}
