/**
 * The pieces of Python's runtime that the engine leans on, written out so that
 * the rest of the model can state what the Python code does on every input:
 * exceptions as values, list indexing with negative indices, `list.remove`,
 * and the string operations `split`, `strip`, `join`, `replace`, `str(int)`
 * and `int(str)` (ASCII only).
 */
module Python {

  /** The exception classes the engine raises or lets escape. */
  datatype Error =
    | ValueError
    | KeyError
    | IndexError
    | TypeError
    | AttributeError
    | InvalidMoveError   // game/exceptions.py: a plain Exception subclass, not a ValueError
    | PlainException     // `raise Exception(...)`

  datatype Option<T> = None | Some(value: T)

  datatype Result<T> = Ok(value: T) | Err(error: Error)
  {
    predicate IsFailure() { Err? }
    function PropagateFailure<U>(): Result<U> requires Err? { Err(error) }
    function Extract(): T requires Ok? { value }
  }

  // ---------------------------------------------------------------- lists

  /** Python's `xs[i]` position: negative indices count from the end, others are an IndexError. */
  function PyIndex(i: int, n: nat): (r: Option<nat>)
    ensures r.Some? <==> -(n as int) <= i < n
    ensures r.Some? ==> r.value < n && r.value == if i < 0 then i + n else i
  {
    if 0 <= i < n then Some(i) else if -(n as int) <= i < 0 then Some(i + n) else None
  }

  /** `xs.remove(x)`: drop the first element equal to `x`; a ValueError when there is none. */
  function RemoveFirst<T(==)>(xs: seq<T>, x: T): (r: Result<seq<T>>)
    ensures r.Err? <==> x !in xs
    ensures r.Err? ==> r.error == ValueError
    ensures r.Ok? ==> |r.value| == |xs| - 1 && multiset(r.value) == multiset(xs) - multiset{x}
  {
    if |xs| == 0 then Err(ValueError)
    else if xs[0] == x then
      assert xs == [xs[0]] + xs[1..];
      Ok(xs[1..])
    else
      match RemoveFirst(xs[1..], x)
      case Err(e) => Err(e)
      case Ok(rest) =>
        assert xs == [xs[0]] + xs[1..];
        Ok([xs[0]] + rest)
  }

  /** `xs.reverse()`. */
  function Reverse<T>(xs: seq<T>): (r: seq<T>)
    ensures |r| == |xs|
    ensures forall i :: 0 <= i < |xs| ==> r[i] == xs[|xs| - 1 - i]
  {
    if xs == [] then [] else Reverse(xs[1..]) + [xs[0]]
  }

  // ---------------------------------------------------------- characters

  /** The ASCII characters `str.isspace()` accepts. */
  predicate IsSpace(c: char)
  {
    // space, \t \n \v \f \r, and the four information separators
    c == ' ' || 9 <= c as int <= 13 || 28 <= c as int <= 31
  }

  predicate IsDigit(c: char) { '0' <= c <= '9' }

  function DigitValue(c: char): (d: nat)
    requires IsDigit(c)
    ensures d < 10
  {
    c as int - '0' as int
  }

  function DigitChar(d: nat): (c: char)
    requires d < 10
    ensures IsDigit(c) && DigitValue(c) == d
  {
    ('0' as int + d) as char
  }

  predicate IsUpper(c: char) { 'A' <= c <= 'Z' }

  predicate IsLower(c: char) { 'a' <= c <= 'z' }

  function Upper(c: char): (u: char)
    ensures IsLower(c) ==> IsUpper(u)
    ensures !IsLower(c) ==> u == c
  {
    if IsLower(c) then (c as int - 32) as char else c
  }

  function Lower(c: char): (l: char)
    ensures IsUpper(c) ==> IsLower(l) && Upper(l) == c
    ensures !IsUpper(c) ==> l == c
  {
    if IsUpper(c) then (c as int + 32) as char else c
  }

  /** `str.isupper()`: some cased character, and no lower-case one. */
  predicate IsUpperString(s: string)
  {
    (exists i :: 0 <= i < |s| && IsUpper(s[i])) && forall i :: 0 <= i < |s| ==> !IsLower(s[i])
  }

  function UpperString(s: string): (u: string)
    ensures |u| == |s| && forall i :: 0 <= i < |s| ==> u[i] == Upper(s[i])
  {
    if s == "" then "" else [Upper(s[0])] + UpperString(s[1..])
  }

  function LowerString(s: string): (l: string)
    ensures |l| == |s| && forall i :: 0 <= i < |s| ==> l[i] == Lower(s[i])
  {
    if s == "" then "" else [Lower(s[0])] + LowerString(s[1..])
  }

  // ------------------------------------------------------------- replace

  /** `s.replace(c, '')`. */
  function RemoveChar(s: string, c: char): (r: string)
    ensures c !in r
    ensures |r| <= |s|
    ensures c !in s ==> r == s
    ensures forall d :: d != c ==> (d in r <==> d in s)
  {
    if s == "" then ""
    else if s[0] == c then RemoveChar(s[1..], c)
    else [s[0]] + RemoveChar(s[1..], c)
  }

  lemma {:induction false} RemoveCharAppend(a: string, b: string, c: char)
    ensures RemoveChar(a + b, c) == RemoveChar(a, c) + RemoveChar(b, c)
  {
    if a == "" {
      assert a + b == b;
    } else {
      assert (a + b)[1..] == a[1..] + b;
      RemoveCharAppend(a[1..], b, c);
    }
  }

  // ---------------------------------------------------------------- join

  /** `sep.join(parts)`. */
  function Join(parts: seq<string>, sep: string): string
  {
    if |parts| == 0 then ""
    else if |parts| == 1 then parts[0]
    else parts[0] + sep + Join(parts[1..], sep)
  }

  // --------------------------------------------------------- split(sep)

  function Find(s: string, c: char): (i: nat)
    requires c in s
    ensures i < |s| && s[i] == c && c !in s[..i]
  {
    if s[0] == c then 0 else Find(s[1..], c) + 1
  }

  /** `s.split(c)`: every separator cuts, so empty pieces are kept and the result is never empty. */
  function Split(s: string, c: char): (r: seq<string>)
    ensures |r| >= 1
    ensures forall i :: 0 <= i < |r| ==> c !in r[i]
    decreases |s|
  {
    if c !in s then [s]
    else
      var i := Find(s, c);
      [s[..i]] + Split(s[i + 1..], c)
  }

  lemma {:induction false} SplitJoin(s: string, c: char)
    ensures Join(Split(s, c), [c]) == s
    decreases |s|
  {
    if c in s {
      var i := Find(s, c);
      var rest := Split(s[i + 1..], c);
      assert Split(s, c) == [s[..i]] + rest;
      assert ([s[..i]] + rest)[1..] == rest;
      assert Join(Split(s, c), [c]) == s[..i] + [c] + Join(rest, [c]);
      SplitJoin(s[i + 1..], c);
      assert s == s[..i] + [c] + s[i + 1..];
    }
  }

  lemma {:induction false} JoinSplit(parts: seq<string>, c: char)
    requires |parts| >= 1
    requires forall i :: 0 <= i < |parts| ==> c !in parts[i]
    ensures Split(Join(parts, [c]), c) == parts
  {
    if |parts| > 1 {
      var s := Join(parts, [c]);
      var rest := Join(parts[1..], [c]);
      assert s == parts[0] + [c] + rest;
      assert s[|parts[0]|] == c;
      assert s[..|parts[0]|] == parts[0];
      assert c in s;
      var i := Find(s, c);
      assert i == |parts[0]|;
      assert s[i + 1..] == rest;
      JoinSplit(parts[1..], c);
    }
  }

  // --------------------------------------------------------- strip/split()

  function StripLeft(s: string): (r: string)
    ensures |r| <= |s| && r == s[|s| - |r|..]
    ensures r == "" || !IsSpace(r[0])
  {
    if |s| > 0 && IsSpace(s[0]) then StripLeft(s[1..]) else s
  }

  function StripRight(s: string): (r: string)
    ensures |r| <= |s| && r == s[..|r|]
    ensures r == "" || !IsSpace(r[|r| - 1])
  {
    if |s| > 0 && IsSpace(s[|s| - 1]) then StripRight(s[..|s| - 1]) else s
  }

  /** `s.strip()`. */
  function Strip(s: string): string { StripRight(StripLeft(s)) }

  predicate NoSpace(s: string) { forall i :: 0 <= i < |s| ==> !IsSpace(s[i]) }

  function TokenLength(s: string): (k: nat)
    ensures k <= |s| && NoSpace(s[..k]) && (k < |s| ==> IsSpace(s[k]))
  {
    if |s| == 0 || IsSpace(s[0]) then 0
    else
      var k := TokenLength(s[1..]);
      assert s[..k + 1] == [s[0]] + s[1..][..k];
      k + 1
  }

  /** `s.split()`: cut at runs of whitespace and drop the empty pieces. */
  function SplitWhitespace(s: string): seq<string>
    decreases |s|
  {
    var t := StripLeft(s);
    if t == "" then []
    else
      var k := TokenLength(t);
      [t[..k]] + SplitWhitespace(t[k..])
  }

  lemma StripOfToken(s: string)
    requires NoSpace(s)
    ensures Strip(s) == s && Strip(" " + s) == s
  {
    if s != "" {
      assert (" " + s)[1..] == s;
    }
  }

  lemma NoSpaceLength(s: string)
    requires s != "" && NoSpace(s)
    ensures TokenLength(s) == |s| && StripLeft(s) == s
  {
  }

  lemma {:induction false} TokenLengthPrefix(t: string, x: string)
    requires NoSpace(t) && x != "" && IsSpace(x[0])
    ensures TokenLength(t + x) == |t|
  {
    if t != "" {
      assert (t + x)[1..] == t[1..] + x;
      TokenLengthPrefix(t[1..], x);
    }
  }

  lemma SplitWhitespaceCons(t: string, rest: string)
    requires t != "" && NoSpace(t)
    ensures SplitWhitespace(t + " " + rest) == [t] + SplitWhitespace(rest)
  {
    var s := t + " " + rest;
    assert StripLeft(s) == s;
    TokenLengthPrefix(t, " " + rest);
    assert s == t + (" " + rest);
    assert s[..|t|] == t;
    assert s[|t|..] == " " + rest;
    assert (" " + rest)[1..] == rest;
    assert StripLeft(" " + rest) == StripLeft(rest);
  }

  /** Splitting a space-joined list of tokens gives the tokens back. */
  lemma {:induction false} SplitWhitespaceJoin(tokens: seq<string>)
    requires forall i :: 0 <= i < |tokens| ==> tokens[i] != "" && NoSpace(tokens[i])
    ensures SplitWhitespace(Join(tokens, " ")) == tokens
  {
    if |tokens| == 1 {
      var t := tokens[0];
      NoSpaceLength(t);
      assert t[..|t|] == t && t[|t|..] == "";
      assert SplitWhitespace("") == [];
      assert Join(tokens, " ") == t;
    } else if |tokens| > 1 {
      var rest := Join(tokens[1..], " ");
      assert Join(tokens, " ") == tokens[0] + " " + rest;
      SplitWhitespaceCons(tokens[0], rest);
      SplitWhitespaceJoin(tokens[1..]);
      assert tokens == [tokens[0]] + tokens[1..];
    }
  }

  // ------------------------------------------------------------ integers

  function NatToString(n: nat): (s: string)
    ensures s != "" && forall i :: 0 <= i < |s| ==> IsDigit(s[i])
    ensures n < 10 ==> s == [DigitChar(n)]
  {
    if n < 10 then [DigitChar(n)] else NatToString(n / 10) + [DigitChar(n % 10)]
  }

  /** `str(n)`. */
  function IntToString(n: int): string
  {
    if n < 0 then ['-'] + NatToString(-n) else NatToString(n)
  }

  function DigitsValue(s: string): nat
    requires forall i :: 0 <= i < |s| ==> IsDigit(s[i])
  {
    if s == "" then 0 else DigitsValue(s[..|s| - 1]) * 10 + DigitValue(s[|s| - 1])
  }

  predicate AllDigits(s: string) { forall i :: 0 <= i < |s| ==> IsDigit(s[i]) }

  /** `int(s)` for ASCII decimal literals (underscores are not modelled). */
  function ParseInt(s: string): (r: Result<int>)
    ensures r.Err? ==> r.error == ValueError
  {
    var t := Strip(s);
    if t == "" then Err(ValueError)
    else
      var negative := t[0] == '-';
      var digits := if t[0] == '-' || t[0] == '+' then t[1..] else t;
      if digits == "" || !AllDigits(digits) then Err(ValueError)
      else if negative then Ok(-(DigitsValue(digits) as int))
      else Ok(DigitsValue(digits))
  }

  lemma {:induction false} DigitsOfNat(n: nat)
    ensures DigitsValue(NatToString(n)) == n
  {
    if n >= 10 {
      var s := NatToString(n);
      assert s[..|s| - 1] == NatToString(n / 10);
      DigitsOfNat(n / 10);
    }
  }

  lemma IntToStringNoSpace(n: int)
    ensures IntToString(n) != "" && NoSpace(IntToString(n))
  {
    var s := IntToString(n);
    var d := NatToString(if n < 0 then -n else n);
    forall i | 0 <= i < |s| ensures !IsSpace(s[i]) {
      if n < 0 && i > 0 { assert s[i] == d[i - 1]; }
    }
  }

  lemma ParseSigned(t: string, v: nat)
    requires Strip(t) == t && t != "" && t[0] == '-' && t[1..] != "" && AllDigits(t[1..])
    requires DigitsValue(t[1..]) == v
    ensures ParseInt(t) == Ok(-(v as int))
  {
  }

  lemma ParseUnsigned(t: string)
    requires Strip(t) == t && t != "" && t[0] != '-' && t[0] != '+' && AllDigits(t)
    ensures ParseInt(t) == Ok(DigitsValue(t))
  {
  }

  lemma NoSpaceCons(c: char, d: string)
    requires !IsSpace(c) && NoSpace(d)
    ensures NoSpace([c] + d)
  {
    var t := [c] + d;
    forall i | 0 <= i < |t| ensures !IsSpace(t[i]) {
      if i > 0 { assert t[i] == d[i - 1]; }
    }
  }

  lemma ParseNat(m: nat)
    ensures ParseInt(NatToString(m)) == Ok(m)
  {
    var d := NatToString(m);
    assert NoSpace(d);
    StripOfToken(d);
    DigitsOfNat(m);
    ParseUnsigned(d);
  }

  lemma ParseNegative(m: nat)
    ensures ParseInt(['-'] + NatToString(m)) == Ok(-(m as int))
  {
    var d := NatToString(m);
    var t := ['-'] + d;
    assert t[0] == '-' && t[1..] == d;
    NoSpaceCons('-', d);
    StripOfToken(t);
    DigitsOfNat(m);
    ParseSigned(t, m);
  }

  /** `int(str(n)) == n`. */
  lemma ParseIntToString(n: int)
    ensures ParseInt(IntToString(n)) == Ok(n)
  {
    if n < 0 {
      ParseNegativeString(n);
    } else {
      ParseNat(n);
    }
  }

  lemma ParseNegativeString(n: int)
    requires n < 0
    ensures ParseInt(IntToString(n)) == Ok(n)
  {
    var m: nat := -n;
    var t := IntToString(n);
    assert t == ['-'] + NatToString(m);
    ParseNegative(m);
  }
}
