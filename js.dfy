/** The small part of JavaScript's runtime semantics that the list log relies on:
    dynamically typed arguments, thrown errors, `String.prototype.split`/`indexOf`/`substring`,
    `Array.prototype.join`, `Number.parseInt(s, 10)` and the decimal printing of a number. */
module Js {

  datatype Option<+T> = None | Some(value: T)

  /** An argument whose type the callee checks at run time: a value of the expected
      type, some other object, or a value that is not an object at all. */
  datatype Arg<+T> = Is(value: T) | OtherObject | NotObject

  /** Every error the core throws or rejects with. */
  datatype Error =
    | NotAList                    // "Given list must be a List object"
    | BadEntryLine                // "Bad entry line: null"
    | UnknownCommand              // "Unknown command"
    | BadEntryData                // "data must be entry line or object"
    | NullEntryData               // TypeError: reading a field of null
    | NotAnEntry                  // "Entry must be a list"
    | MissingUsersLine            // TypeError: reading `split` of undefined
    | CommandNotString            // "Command must be a string"
    | NotAString                  // AssertionError from assert.strictEqual(typeof x, 'string')
    | ResolverNotObject           // AssertionError from assert.strictEqual(typeof r, 'object')
    | InvalidResolverType         // "Invalid resolver type of ..."
    | UnknownLocalUser(uid: string)   // "Unknown local user: " + uid
    | UnknownProvider(provider: string)  // "Unknown provider: " + provider
    | NotThenable                 // TypeError: calling `then` on undefined
    | RedefinedData               // TypeError: Cannot redefine property: data

  datatype Result<+T> = Ok(value: T) | Err(error: Error)

  datatype Outcome = Pass | Fail(error: Error)

  // ---------------------------------------------------------------------------
  // Characters and runs of characters

  predicate All(s: string, p: char -> bool)
  {
    forall i :: 0 <= i < |s| ==> p(s[i])
  }

  predicate IsDigit(c: char) { '0' <= c <= '9' }

  /** The end of the longest run of characters satisfying `p` that starts at `i`. */
  function Span(s: string, i: nat, p: char -> bool): (j: nat)
    requires i <= |s|
    ensures i <= j <= |s|
    ensures forall k :: i <= k < j ==> p(s[k])
    ensures j == |s| || !p(s[j])
    decreases |s| - i
  {
    if i == |s| || !p(s[i]) then i else Span(s, i + 1, p)
  }

  /** A run of `p`-characters from `i` that ends at `j` is the longest one. */
  lemma SpanIs(s: string, i: nat, j: nat, p: char -> bool)
    requires i <= j <= |s|
    requires forall k :: i <= k < j ==> p(s[k])
    requires j == |s| || !p(s[j])
    ensures Span(s, i, p) == j
  {
  }

  // ---------------------------------------------------------------------------
  // String.prototype.indexOf / substring

  /** `s.indexOf(c)`: the first position of `c`, or -1. */
  function IndexOf(s: string, c: char): (i: int)
    ensures -1 <= i < |s|
    ensures i == -1 <==> c !in s
    ensures 0 <= i ==> s[i] == c && c !in s[..i]
    decreases |s|
  {
    if |s| == 0 then -1
    else if s[0] == c then 0
    else
      var k := IndexOf(s[1..], c);
      if k == -1 then -1
      else
        assert s[..k + 1] == [s[0]] + s[1..][..k];
        k + 1
  }

  function Clamp(x: int, len: nat): (r: nat)
    ensures r <= len
  {
    if x < 0 then 0 else if x > len then len else x
  }

  /** `s.substring(start, end)`: both bounds are clamped to the string and swapped when reversed. */
  function Substring(s: string, start: int, end: int): (r: string)
    ensures |r| <= |s|
    ensures 0 <= start <= end <= |s| ==> r == s[start..end]
    ensures 0 <= end <= start <= |s| ==> r == s[end..start]
  {
    var a, b := Clamp(start, |s|), Clamp(end, |s|);
    if a <= b then s[a..b] else s[b..a]
  }

  // ---------------------------------------------------------------------------
  // String.prototype.split on one character, Array.prototype.join

  /** `s.split(sep)` for a one-character separator. */
  function Split(s: string, sep: char): (r: seq<string>)
    ensures |r| >= 1
    ensures forall k :: 0 <= k < |r| ==> sep !in r[k]
    decreases |s|
  {
    var i := IndexOf(s, sep);
    if i == -1 then [s]
    else
      var rest := Split(s[i + 1..], sep);
      assert forall k :: 1 <= k < 1 + |rest| ==> ([s[..i]] + rest)[k] == rest[k - 1];
      [s[..i]] + rest
  }

  /** A character absent from a string is absent from every piece of its split. */
  lemma {:induction false} SplitKeepsOut(s: string, sep: char, c: char)
    requires c !in s
    ensures forall k :: 0 <= k < |Split(s, sep)| ==> c !in Split(s, sep)[k]
    decreases |s|
  {
    var i := IndexOf(s, sep);
    if i != -1 {
      var rest := Split(s[i + 1..], sep);
      assert c !in s[..i] && c !in s[i + 1..];
      SplitKeepsOut(s[i + 1..], sep, c);
      var parts := [s[..i]] + rest;
      assert Split(s, sep) == parts;
      assert forall k :: 1 <= k < |parts| ==> parts[k] == rest[k - 1];
    }
  }

  /** `parts.join(sep)` for a one-character separator. */
  function Join(parts: seq<string>, sep: char): string
  {
    if |parts| == 0 then ""
    else if |parts| == 1 then parts[0]
    else parts[0] + [sep] + Join(parts[1..], sep)
  }

  lemma {:induction false} JoinSnoc(parts: seq<string>, x: string, sep: char)
    requires |parts| >= 1
    ensures Join(parts + [x], sep) == Join(parts, sep) + [sep] + x
  {
    if |parts| == 1 {
      assert parts + [x] == [parts[0], x];
      assert [x][1..] == [];
    } else {
      assert (parts + [x])[1..] == parts[1..] + [x];
      JoinSnoc(parts[1..], x, sep);
    }
  }

  /** Joining the pieces of a split gives the string back. */
  lemma {:induction false} JoinSplit(s: string, sep: char)
    ensures Join(Split(s, sep), sep) == s
    decreases |s|
  {
    var i := IndexOf(s, sep);
    if i != -1 {
      var rest := Split(s[i + 1..], sep);
      var parts := [s[..i]] + rest;
      assert Split(s, sep) == parts;
      assert parts[0] == s[..i] && parts[1..] == rest;
      JoinSplit(s[i + 1..], sep);
      assert Join(parts, sep) == s[..i] + [sep] + Join(rest, sep);
      assert s == s[..i] + [sep] + s[i + 1..];
    }
  }

  /** Splitting a join of separator-free pieces gives the pieces back. */
  lemma {:induction false} SplitJoin(parts: seq<string>, sep: char)
    requires |parts| >= 1
    requires forall k :: 0 <= k < |parts| ==> sep !in parts[k]
    ensures Split(Join(parts, sep), sep) == parts
  {
    if |parts| > 1 {
      var s := Join(parts, sep);
      var rest := Join(parts[1..], sep);
      assert s == parts[0] + [sep] + rest;
      IndexOfAfter(parts[0], rest, sep);
      assert s[..|parts[0]|] == parts[0];
      assert s[|parts[0]| + 1..] == rest;
      SplitJoin(parts[1..], sep);
    }
  }

  lemma IndexOfAfter(a: string, b: string, sep: char)
    requires sep !in a
    ensures IndexOf(a + [sep] + b, sep) == |a|
  {
    var s := a + [sep] + b;
    var i := IndexOf(s, sep);
    assert s[|a|] == sep;
    assert forall k :: 0 <= k < |a| ==> s[k] == a[k];
  }

  /** A string splits into at least two pieces exactly when it contains the separator. */
  lemma SplitCount(s: string, sep: char)
    ensures |Split(s, sep)| >= 2 <==> sep in s
  {
  }

  /** Every character of a join is the separator or a character of one of the pieces. */
  lemma {:induction false} JoinChars(parts: seq<string>, sep: char, c: char)
    requires c in Join(parts, sep)
    ensures c == sep || exists k :: 0 <= k < |parts| && c in parts[k]
  {
    if |parts| > 1 {
      var rest := Join(parts[1..], sep);
      assert Join(parts, sep) == parts[0] + [sep] + rest;
      if c != sep && c !in parts[0] {
        assert c in rest;
        JoinChars(parts[1..], sep, c);
        var k :| 0 <= k < |parts[1..]| && c in parts[1..][k];
        assert c in parts[k + 1];
      }
    }
  }

  // ---------------------------------------------------------------------------
  // Decimal numbers

  function DigitValue(c: char): (d: nat)
    requires IsDigit(c)
    ensures d < 10
  {
    (c as int) - ('0' as int)
  }

  function DigitChar(d: nat): (c: char)
    requires d < 10
    ensures IsDigit(c) && DigitValue(c) == d
  {
    (('0' as int) + d) as char
  }

  /** The value of a string of decimal digits. */
  function DecimalValue(s: string): nat
    requires All(s, IsDigit)
  {
    if s == [] then 0 else DecimalValue(s[..|s| - 1]) * 10 + DigitValue(s[|s| - 1])
  }

  /** A digit string without a superfluous leading zero. */
  predicate Canonical(s: string)
  {
    |s| > 0 && (s[0] == '0' ==> |s| == 1)
  }

  /** The decimal printing of a natural number (`String(n)`). */
  function NatToDecimal(n: nat): (s: string)
    ensures All(s, IsDigit) && Canonical(s)
  {
    if n < 10 then [DigitChar(n)] else NatToDecimal(n / 10) + [DigitChar(n % 10)]
  }

  lemma {:induction false} DecimalOfPrinted(n: nat)
    ensures DecimalValue(NatToDecimal(n)) == n
  {
    if n >= 10 {
      DecimalOfPrinted(n / 10);
      var s := NatToDecimal(n);
      assert s[..|s| - 1] == NatToDecimal(n / 10);
    }
  }

  lemma {:induction false} DecimalPositive(s: string)
    requires All(s, IsDigit) && |s| > 0 && s[0] != '0'
    ensures DecimalValue(s) > 0
  {
    if |s| > 1 {
      var p := s[..|s| - 1];
      assert p[0] == s[0];
      DecimalPositive(p);
    }
  }

  /** Printing the value of a canonical digit string gives the string back. */
  lemma {:induction false} PrintedOfDecimal(s: string)
    requires All(s, IsDigit) && Canonical(s)
    ensures NatToDecimal(DecimalValue(s)) == s
  {
    if |s| > 1 {
      var p := s[..|s| - 1];
      var d := DigitValue(s[|s| - 1]);
      assert p[0] == s[0] && Canonical(p);
      DecimalPositive(p);
      PrintedOfDecimal(p);
      var v := DecimalValue(s);
      assert v == DecimalValue(p) * 10 + d;
      assert v / 10 == DecimalValue(p) && v % 10 == d;
      assert s == p + [s[|s| - 1]];
    }
  }

  /** A superfluous leading zero never survives printing the value. */
  lemma LeadingZeroLost(s: string)
    requires All(s, IsDigit) && !Canonical(s)
    ensures NatToDecimal(DecimalValue(s)) != s
  {
  }

  // ---------------------------------------------------------------------------
  // Number.parseInt(s, 10)

  /** StrWhiteSpaceChar: the characters `parseInt` skips before the number. */
  predicate IsWhiteSpace(c: char)
  {
    c == '\t' || c == '\n' || c == '\U{000B}' || c == '\U{000C}' || c == '\r' || c == ' '
    || c == '\U{00A0}' || c == '\U{1680}' || ('\U{2000}' <= c <= '\U{200A}')
    || c == '\U{2028}' || c == '\U{2029}' || c == '\U{202F}' || c == '\U{205F}' || c == '\U{3000}'
    || c == '\U{FEFF}'
  }

  /** `Number.parseInt(s, 10)`; `None` stands for NaN. Leading white space is skipped,
      one sign is read, then the longest run of digits; anything after it is ignored. */
  function ParseInt(s: string): Option<int>
  {
    ParseSigned(s[Span(s, 0, IsWhiteSpace)..])
  }

  /** What `parseInt` reads after the white space: an optional sign, then the digits. */
  function ParseSigned(t: string): Option<int>
  {
    if |t| > 0 && t[0] == '-' then
      var d := LeadingDigits(t[1..]);
      if d.None? then None else Some(-d.value)
    else if |t| > 0 && t[0] == '+' then LeadingDigits(t[1..])
    else LeadingDigits(t)
  }

  /** The decimal value of the longest run of digits that starts the string, `None` when the
      string does not start with a digit. */
  function LeadingDigits(u: string): Option<int>
  {
    var n := Span(u, 0, IsDigit);
    if n == 0 then None else Some(DecimalValue(u[..n]))
  }

  /** A run of digits ends where the first non-digit starts. */
  lemma {:induction false} LeadingDigitsOf(s: string, x: string)
    requires |s| > 0 && All(s, IsDigit)
    requires |x| == 0 || !IsDigit(x[0])
    ensures LeadingDigits(s + x) == Some(DecimalValue(s))
  {
    var u := s + x;
    if |x| > 0 {
      assert u[|s|] == x[0];
    }
    SpanIs(u, 0, |s|, IsDigit);
    assert u[..|s|] == s;
  }

  /** Leading white space is skipped: what follows it is read as a signed number. */
  lemma {:induction false} ParseIntSkipsWhiteSpace(w: string, t: string)
    requires All(w, IsWhiteSpace)
    requires |t| == 0 || !IsWhiteSpace(t[0])
    ensures ParseInt(w + t) == ParseSigned(t)
  {
    var str := w + t;
    if |t| > 0 {
      assert str[|w|] == t[0];
    }
    SpanIs(str, 0, |w|, IsWhiteSpace);
    assert str[|w|..] == t;
  }

  /** On a non-empty string of digits `parseInt` is the decimal value. */
  lemma {:induction false} ParseIntOfDigits(s: string)
    requires |s| > 0 && All(s, IsDigit)
    ensures ParseInt(s) == Some(DecimalValue(s))
  {
    assert "" + s == s && s + "" == s;
    ParseIntSkipsWhiteSpace("", s);
    LeadingDigitsOf(s, "");
  }

  /** After at most one sign, the digits up to the first non-digit are read: their decimal
      value, negated after a minus sign. */
  lemma {:induction false} ParseSignedOfNumeral(sign: string, s: string, x: string)
    requires sign == "" || sign == "+" || sign == "-"
    requires |s| > 0 && All(s, IsDigit)
    requires |x| == 0 || !IsDigit(x[0])
    ensures ParseSigned(sign + (s + x)) == Some(if sign == "-" then -(DecimalValue(s) as int) else DecimalValue(s) as int)
  {
    var u := s + x;
    LeadingDigitsOf(s, x);
    if sign == "" {
      assert sign + u == u && u[0] == s[0];
    } else {
      assert (sign + u)[0] == sign[0] && (sign + u)[1..] == u;
    }
  }

  /** After white space and at most one sign, `parseInt` reads the digits up to the first
      non-digit: their decimal value, negated after a minus sign. */
  lemma {:induction false} ParseIntOfNumeral(w: string, sign: string, s: string, x: string)
    requires All(w, IsWhiteSpace)
    requires sign == "" || sign == "+" || sign == "-"
    requires |s| > 0 && All(s, IsDigit)
    requires |x| == 0 || !IsDigit(x[0])
    ensures ParseInt(w + (sign + (s + x))) == Some(if sign == "-" then -(DecimalValue(s) as int) else DecimalValue(s) as int)
  {
    assert (sign + (s + x))[0] == if sign == "" then s[0] else sign[0];
    ParseSignedOfNumeral(sign, s, x);
    ParseIntSkipsWhiteSpace(w, sign + (s + x));
  }

  /** After at most one sign, a character that is no digit or sign, or the end of the
      string, reads as NaN. */
  lemma {:induction false} ParseSignedNaN(sign: string, x: string)
    requires sign == "" || sign == "+" || sign == "-"
    requires |x| == 0 || (!IsDigit(x[0]) && x[0] != '+' && x[0] != '-')
    ensures ParseSigned(sign + x) == None
  {
    SpanIs(x, 0, 0, IsDigit);
    if sign == "" {
      assert sign + x == x;
    } else {
      assert (sign + x)[0] == sign[0] && (sign + x)[1..] == x;
    }
  }

  /** After white space and at most one sign, a character that is no digit, white space or
      sign makes `parseInt` NaN, and so does the end of the string. */
  lemma {:induction false} ParseIntNaN(w: string, sign: string, x: string)
    requires All(w, IsWhiteSpace)
    requires sign == "" || sign == "+" || sign == "-"
    requires |x| == 0 || (!IsDigit(x[0]) && !IsWhiteSpace(x[0]) && x[0] != '+' && x[0] != '-')
    ensures ParseInt(w + (sign + x)) == None
  {
    if |sign + x| > 0 {
      assert (sign + x)[0] == if sign == "" then x[0] else sign[0];
    }
    ParseSignedNaN(sign, x);
    ParseIntSkipsWhiteSpace(w, sign + x);
  }
}
