/** The JavaScript string built-ins the scrapers and the export code rely on:
    `toLowerCase`, `includes`, `trim`, `replace(/\s/g, "")`, `match(/(\d+)/)`,
    `parseInt(·, 10)`, `join`, `split(c)[0]` and `replace(/-/g, "")`. */
module JsText {
  import opened Wrappers

  /** The white-space characters outside the block U+2000 to U+200A. */
  const SpaceChars: set<char> := {
    ' ', '\t', '\n', '\r', '\U{000B}', '\U{000C}', '\U{00A0}', '\U{1680}',
    '\U{2028}', '\U{2029}', '\U{202F}', '\U{205F}', '\U{3000}', '\U{FEFF}'}

  /** White space as JavaScript's `\s` and `String.prototype.trim` see it
      (the WhiteSpace and LineTerminator characters). */
  predicate IsSpace(c: char) {
    c in SpaceChars || '\U{2000}' <= c <= '\U{200A}'
  }

  /** No visible ASCII character is white space. */
  lemma VisibleAsciiIsNotSpace()
    ensures forall c: char :: '!' <= c <= '~' ==> !IsSpace(c)
  {
  }

  /** `\d`: the ASCII digits only. */
  predicate IsDigit(c: char) {
    '0' <= c <= '9'
  }

  predicate AllSpace(s: string) {
    forall i :: 0 <= i < |s| ==> IsSpace(s[i])
  }

  predicate AllDigits(s: string) {
    forall i :: 0 <= i < |s| ==> IsDigit(s[i])
  }

  function LowerChar(c: char): char {
    if 'A' <= c <= 'Z' then (c as int + 32) as char else c
  }

  function UpperChar(c: char): char {
    if 'a' <= c <= 'z' then (c as int - 32) as char else c
  }

  /** `s.toLowerCase()` on the ASCII letters. */
  function Lower(s: string): string {
    seq(|s|, i requires 0 <= i < |s| => LowerChar(s[i]))
  }

  /** `s.toUpperCase()` on the ASCII letters. */
  function Upper(s: string): string {
    seq(|s|, i requires 0 <= i < |s| => UpperChar(s[i]))
  }

  /** Lower-casing twice is lower-casing once. */
  lemma LowerIdempotent(s: string)
    ensures Lower(Lower(s)) == Lower(s)
  {
  }

  /** Upper-casing first makes no difference to the lower-cased text. */
  lemma LowerOfUpper(s: string)
    ensures Lower(Upper(s)) == Lower(s)
  {
  }

  /** Lower-casing works character by character, so it distributes over `+`. */
  lemma LowerAppend(a: string, b: string)
    ensures Lower(a + b) == Lower(a) + Lower(b)
  {
  }

  /** `sub` occurs in `s` starting at index `i`. */
  predicate OccursAt(s: string, sub: string, i: int) {
    0 <= i && i + |sub| <= |s| && s[i..i + |sub|] == sub
  }

  /** `s.includes(sub)`. */
  predicate Includes(s: string, sub: string) {
    exists i | 0 <= i <= |s| - |sub| :: OccursAt(s, sub, i)
  }

  /** `s.trimStart()`: drops the leading white space and nothing else. */
  function TrimStart(s: string): (r: string)
    ensures |r| <= |s| && r == s[|s| - |r|..]
    ensures r == [] || !IsSpace(r[0])
    ensures forall i :: 0 <= i < |s| - |r| ==> IsSpace(s[i])
  {
    if s != [] && IsSpace(s[0]) then
      var r := TrimStart(s[1..]);
      assert forall i :: 1 <= i < |s| ==> s[i] == s[1..][i - 1];
      r
    else s
  }

  /** `s.trimEnd()`: drops the trailing white space and nothing else. */
  function TrimEnd(s: string): (r: string)
    ensures |r| <= |s| && r == s[..|r|]
    ensures r == [] || !IsSpace(r[|r| - 1])
    ensures forall i :: |r| <= i < |s| ==> IsSpace(s[i])
  {
    if s != [] && IsSpace(s[|s| - 1]) then TrimEnd(s[..|s| - 1]) else s
  }

  /** `s.trim()`: what is left neither starts nor ends with white space
      (`TrimIsSlice` says it is a slice of `s`, `TrimEmpty` when it is empty). */
  function Trim(s: string): (r: string)
    ensures |r| <= |s|
    ensures r == [] || (!IsSpace(r[0]) && !IsSpace(r[|r| - 1]))
  {
    TrimEnds(s);
    TrimEnd(TrimStart(s))
  }

  lemma TrimEnds(s: string)
    ensures var r := TrimEnd(TrimStart(s)); r == [] || (!IsSpace(r[0]) && !IsSpace(r[|r| - 1]))
  {
    var t := TrimStart(s);
    var r := TrimEnd(t);
    if r != [] {
      assert r[0] == t[0];
    }
  }

  /** Trimming leaves nothing exactly when `s` is all white space. */
  lemma TrimEmpty(s: string)
    ensures Trim(s) == [] <==> AllSpace(s)
  {
    TrimStartAllSpace(s);
    TrimEndEmpty(TrimStart(s));
  }

  lemma {:induction false} TrimStartAllSpace(s: string)
    ensures AllSpace(TrimStart(s)) <==> AllSpace(s)
  {
    if s != [] && IsSpace(s[0]) {
      TrimStartAllSpace(s[1..]);
      assert forall i :: 1 <= i < |s| ==> s[i] == s[1..][i - 1];
    }
  }

  lemma TrimEndEmpty(t: string)
    ensures TrimEnd(t) == [] <==> AllSpace(t)
  {
    var r := TrimEnd(t);
    if r != [] {
      assert r[|r| - 1] == t[|r| - 1];
    }
  }

  /** Where `Trim(s)` starts inside `s`: the length of the leading white space. */
  function TrimOffset(s: string): nat {
    |s| - |TrimStart(s)|
  }

  /** `Trim(s)` is the slice of `s` starting at `TrimOffset(s)`. */
  lemma TrimIsSlice(s: string)
    ensures TrimOffset(s) + |Trim(s)| <= |s| && Trim(s) == s[TrimOffset(s)..TrimOffset(s) + |Trim(s)|]
  {
    var t := TrimStart(s);
    assert Trim(s) == t[..|Trim(s)|];
  }

  /** `s.replace(/\s/g, "")`. */
  function RemoveSpaces(s: string): string {
    if s == [] then []
    else if IsSpace(s[0]) then RemoveSpaces(s[1..])
    else [s[0]] + RemoveSpaces(s[1..])
  }

  /** Removing white space keeps exactly the characters that are not white space. */
  lemma {:induction false} RemoveSpacesKeeps(s: string)
    ensures forall c :: c in RemoveSpaces(s) <==> c in s && !IsSpace(c)
  {
    if s != [] {
      RemoveSpacesKeeps(s[1..]);
      assert forall c :: c in s <==> c == s[0] || c in s[1..];
    }
  }

  /** Removing white space works piece by piece, so it keeps the order and the
      number of the characters it keeps (`RemoveSpacesOne` says which). */
  lemma {:induction false} RemoveSpacesAppend(a: string, b: string)
    ensures RemoveSpaces(a + b) == RemoveSpaces(a) + RemoveSpaces(b)
  {
    if a == [] {
      assert a + b == b;
    } else {
      SplitFirst(a, b);
      RemoveSpacesAppend(a[1..], b);
      RemoveSpacesCons(a[0], a[1..] + b);
      RemoveSpacesCons(a[0], a[1..]);
      ConcatAssoc(RemoveSpaces([a[0]]), RemoveSpaces(a[1..]), RemoveSpaces(b));
    }
  }

  /** The first character is dealt with before the rest. */
  lemma RemoveSpacesCons(x: char, s: string)
    ensures RemoveSpaces([x] + s) == RemoveSpaces([x]) + RemoveSpaces(s)
  {
    var t := [x] + s;
    assert t[0] == x && t[1..] == s;
    RemoveSpacesOne(x);
  }

  lemma RemoveSpacesOne(c: char)
    ensures RemoveSpaces([c]) == if IsSpace(c) then [] else [c]
  {
    assert [c][1..] == [];
  }

  /** Leading white space in front of a non-space character is all `trimStart` drops. */
  lemma {:induction false} TrimStartSkips(ws: string, x: string)
    requires AllSpace(ws) && x != [] && !IsSpace(x[0])
    ensures TrimStart(ws + x) == x
  {
    if ws == [] {
      assert ws + x == x;
    } else {
      assert (ws + x)[1..] == ws[1..] + x;
      TrimStartSkips(ws[1..], x);
    }
  }

  /** The longest prefix of `s` made of digits. */
  function DigitPrefix(s: string): (r: string)
    ensures |r| <= |s| && r == s[..|r|]
    ensures AllDigits(r)
    ensures |r| == |s| || !IsDigit(s[|r|])
  {
    if s != [] && IsDigit(s[0]) then [s[0]] + DigitPrefix(s[1..]) else []
  }

  /** The number a string of decimal digits denotes. */
  function DigitValue(ds: string): nat
    requires AllDigits(ds)
  {
    if ds == [] then 0 else DigitValue(ds[..|ds| - 1]) * 10 + (ds[|ds| - 1] as int - '0' as int)
  }

  /** The index of the first digit of `s`, or `|s|` when there is none. */
  function FirstDigitIndex(s: string): (k: nat)
    ensures k <= |s|
    ensures forall i :: 0 <= i < k ==> !IsDigit(s[i])
    ensures k < |s| ==> IsDigit(s[k])
  {
    if s == [] || IsDigit(s[0]) then 0 else 1 + FirstDigitIndex(s[1..])
  }

  /** `s.match(/(\d+)/)?.[1]`: the leftmost run of digits, taken whole. */
  function FirstDigitRun(s: string): (r: Option<string>)
    ensures r.None? <==> forall i :: 0 <= i < |s| ==> !IsDigit(s[i])
    ensures r.Some? ==> r.value != [] && AllDigits(r.value)
  {
    var k := FirstDigitIndex(s);
    if k == |s| then None else Some(DigitPrefix(s[k..]))
  }

  /** `parseInt(s, 10)`: leading white space, an optional sign, then the longest
      run of digits. `None` stands for `NaN`, the result when no digit comes where
      the number should start. */
  function ParseInt(s: string): (r: Option<int>)
    ensures r.Some? <==>
      var t := TrimStart(s);
      var body := if t != [] && (t[0] == '-' || t[0] == '+') then t[1..] else t;
      body != [] && IsDigit(body[0])
  {
    var t := TrimStart(s);
    var negative := t != [] && t[0] == '-';
    var body := if t != [] && (t[0] == '-' || t[0] == '+') then t[1..] else t;
    var ds := DigitPrefix(body);
    if ds == [] then None
    else
      var v: int := DigitValue(ds);
      Some(if negative then -v else v)
  }

  function DigitChar(d: nat): char
    requires d < 10
  {
    ('0' as int + d) as char
  }

  /** `String(n)` for a natural number: its decimal digits, with no leading zero. */
  function DecimalString(n: nat): (r: string)
    ensures r != [] && AllDigits(r)
    ensures (r[0] == '0') == (n == 0)
  {
    if n < 10 then [DigitChar(n)] else DecimalString(n / 10) + [DigitChar(n % 10)]
  }

  lemma {:induction false} DigitValueOfDecimal(n: nat)
    ensures DigitValue(DecimalString(n)) == n
  {
    if n >= 10 {
      DigitValueOfDecimal(n / 10);
      var r := DecimalString(n);
      assert r[..|r| - 1] == DecimalString(n / 10);
    }
  }

  /** `parseInt` reads back what `String` writes, for every natural number and its negation. */
  lemma ParseIntOfDecimal(n: nat)
    ensures ParseInt(DecimalString(n)) == Some(n)
    ensures ParseInt("-" + DecimalString(n)) == Some(-(n as int))
  {
    DigitValueOfDecimal(n);
    ParseIntOfDigits(DecimalString(n));
  }

  /** A non-empty run of digits, with or without a leading minus sign, parses to its value. */
  lemma ParseIntOfDigits(r: string)
    requires r != [] && AllDigits(r)
    ensures ParseInt(r) == Some(DigitValue(r) as int)
    ensures ParseInt("-" + r) == Some(-(DigitValue(r) as int))
  {
    DigitsArePrefix(r);
    ParseIntUnsigned(r);
    ParseIntMinus(r);
  }

  /** `parseInt` on a string that is its own digit prefix. */
  lemma ParseIntUnsigned(r: string)
    requires r != [] && '0' <= r[0] <= '9' && DigitPrefix(r) == r
    ensures ParseInt(r) == Some(DigitValue(r) as int)
  {
    var c := r[0];
    assert !IsSpace(c) && c != '-' && c != '+' by {
      VisibleAsciiIsNotSpace();
    }
    assert TrimStart(r) == r;
  }

  /** `parseInt` on a minus sign followed by such a string. */
  lemma ParseIntMinus(r: string)
    requires r != [] && '0' <= r[0] <= '9' && DigitPrefix(r) == r
    ensures ParseInt("-" + r) == Some(-(DigitValue(r) as int))
  {
    var m := "-" + r;
    assert m[0] == '-' && m[1..] == r;
    ParseIntNegative(m, r);
  }

  /** The same, with the string and its tail after the sign given apart. */
  lemma ParseIntNegative(m: string, r: string)
    requires |m| > 1 && m[0] == '-' && m[1..] == r && '0' <= r[0] <= '9' && DigitPrefix(r) == r
    ensures ParseInt(m) == Some(-(DigitValue(r) as int))
  {
    assert !IsSpace('-');
    assert TrimStart(m) == m;
  }

  lemma {:induction false} DigitsArePrefix(r: string)
    requires AllDigits(r)
    ensures DigitPrefix(r) == r
  {
    if r != [] {
      assert AllDigits(r[1..]);
      DigitsArePrefix(r[1..]);
      assert [r[0]] + r[1..] == r;
    }
  }

  /** `parts.join(sep)`: the first part opens the result and the last part closes it. */
  function Join(parts: seq<string>, sep: string): (r: string)
    ensures |parts| > 0 ==> |parts[0]| <= |r| && r[..|parts[0]|] == parts[0]
    ensures |parts| > 0 ==> |parts[|parts| - 1]| <= |r| && r[|r| - |parts[|parts| - 1]|..] == parts[|parts| - 1]
  {
    if |parts| == 0 then ""
    else if |parts| == 1 then parts[0]
    else
      var init := Join(parts[..|parts| - 1], sep);
      assert init[..|parts[0]|] == parts[0];
      init + sep + parts[|parts| - 1]
  }

  /** A single part joins to itself, with no separator. */
  lemma JoinOne(p: string, sep: string)
    ensures Join([p], sep) == p
  {
  }

  /** One more part puts the separator and then that part at the end. */
  lemma JoinSnoc(ps: seq<string>, p: string, sep: string)
    requires ps != []
    ensures Join(ps + [p], sep) == Join(ps, sep) + sep + p
  {
    var qs := ps + [p];
    assert qs[..|qs| - 1] == ps;
  }

  /** The inductive step of `JoinAppend`: one more part at the end of the
      second list. */
  lemma JoinAppendStep(ps: seq<string>, front: seq<string>, last: string, sep: string)
    requires ps != [] && front != []
    requires Join(ps + front, sep) == Join(ps, sep) + sep + Join(front, sep)
    ensures Join((ps + front) + [last], sep) == Join(ps, sep) + sep + Join(front + [last], sep)
  {
    JoinSnoc(ps + front, last, sep);
    JoinSnoc(front, last, sep);
    var a, b := Join(ps, sep) + sep, Join(front, sep);
    ConcatAssoc(a, b, sep + last);
    ConcatAssoc(b, sep, last);
    ConcatAssoc(a + b, sep, last);
  }

  /** Joining keeps the parts in order, with the separator between any two
      neighbours: two joined lists meet at one separator. */
  lemma {:induction false} JoinAppend(ps: seq<string>, qs: seq<string>, sep: string)
    requires ps != [] && qs != []
    ensures Join(ps + qs, sep) == Join(ps, sep) + sep + Join(qs, sep)
    decreases |qs|
  {
    SplitLast(ps, qs);
    var front, last := qs[..|qs| - 1], qs[|qs| - 1];
    if front == [] {
      JoinSnoc(ps, last, sep);
      JoinOne(last, sep);
    } else {
      JoinAppend(ps, front, sep);
      JoinAppendStep(ps, front, last, sep);
    }
  }

  /** `s.split(c)[0]`: everything before the first `c`, or all of `s`. */
  function BeforeFirst(s: string, c: char): (r: string)
    ensures |r| <= |s| && r == s[..|r|]
    ensures c !in r
    ensures |r| < |s| ==> s[|r|] == c
  {
    if s == [] || s[0] == c then [] else [s[0]] + BeforeFirst(s[1..], c)
  }

  /** Removing a character works piece by piece, so it keeps the order and the
      number of the other characters (`RemoveCharOne` says which). */
  lemma {:induction false} RemoveCharAppend(a: string, b: string, c: char)
    ensures RemoveChar(a + b, c) == RemoveChar(a, c) + RemoveChar(b, c)
  {
    if a == [] {
      assert a + b == b;
    } else {
      SplitFirst(a, b);
      RemoveCharAppend(a[1..], b, c);
      RemoveCharCons(a[0], a[1..] + b, c);
      RemoveCharCons(a[0], a[1..], c);
      ConcatAssoc(RemoveChar([a[0]], c), RemoveChar(a[1..], c), RemoveChar(b, c));
    }
  }

  /** The first character is dealt with before the rest. */
  lemma RemoveCharCons(x: char, s: string, c: char)
    ensures RemoveChar([x] + s, c) == RemoveChar([x], c) + RemoveChar(s, c)
  {
    var t := [x] + s;
    assert t[0] == x && t[1..] == s;
    RemoveCharOne(x, c);
  }

  lemma RemoveCharOne(x: char, c: char)
    ensures RemoveChar([x], c) == if x == c then [] else [x]
  {
    assert [x][1..] == [];
  }

  /** `s.replace(/c/g, "")` for a single character `c`. */
  function RemoveChar(s: string, c: char): (r: string)
    ensures forall x :: x in r <==> x in s && x != c
    ensures c !in s ==> r == s
  {
    if s == [] then []
    else
      var rest := RemoveChar(s[1..], c);
      assert forall x :: x in s <==> x == s[0] || x in s[1..];
      assert s == [s[0]] + s[1..];
      if s[0] == c then rest else [s[0]] + rest
  }

  /** Splitting off the last element of the second half of a concatenation. */
  lemma SplitLast<T>(a: seq<T>, b: seq<T>)
    requires b != []
    ensures b == b[..|b| - 1] + [b[|b| - 1]]
    ensures a + b == (a + b[..|b| - 1]) + [b[|b| - 1]]
  {
    assert b == b[..|b| - 1] + [b[|b| - 1]];
  }

  /** Splitting off the first element of the first half of a concatenation. */
  lemma SplitFirst<T>(a: seq<T>, b: seq<T>)
    requires a != []
    ensures a == [a[0]] + a[1..]
    ensures a + b == [a[0]] + (a[1..] + b)
  {
    assert a == [a[0]] + a[1..];
  }

  /** One more element of `s` taken. */
  lemma TakeSnoc<T>(s: seq<T>, k: nat)
    requires k < |s|
    ensures s[..k + 1] == s[..k] + [s[k]]
  {
  }

  /** Taking all of `s` is `s`. */
  lemma TakeAll<T>(s: seq<T>)
    ensures s[..|s|] == s
  {
  }

  /** Appending nothing changes nothing. */
  lemma ConcatEmpty<T>(s: seq<T>)
    ensures s + [] == s
  {
  }

  /** Concatenation is associative. */
  lemma ConcatAssoc<T>(x: seq<T>, y: seq<T>, z: seq<T>)
    ensures (x + y) + z == x + (y + z)
  {
  }
}
