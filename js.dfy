/** The small part of JavaScript's value and string semantics that the modelled
    code relies on: truthiness of optional values, `||` defaults, `startsWith`,
    `endsWith`, `trim`, `split`, `join`, `parseInt(s, 10)` and integer-to-string
    conversion. */
module Js {
  import opened Wrappers

  // ---------------------------------------------------------------------------
  // Values and truthiness
  // ---------------------------------------------------------------------------

  /** A JavaScript number as the modelled code produces it: an integer or NaN. */
  datatype JsNumber = Num(n: int) | NaN

  /** A number is truthy unless it is 0 or NaN. */
  predicate NumTruthy(x: JsNumber) {
    x.Num? && x.n != 0
  }

  /** An optional (possibly undefined) number is truthy when present and truthy. */
  predicate OptNumTruthy(x: Option<JsNumber>) {
    x.Some? && NumTruthy(x.value)
  }

  /** An optional string is truthy when present and not empty. */
  predicate StrTruthy(s: Option<string>) {
    s.Some? && s.value != ""
  }

  /** `a || b` on two optional strings. */
  function OrStr(a: Option<string>, b: Option<string>): Option<string> {
    if StrTruthy(a) then a else b
  }

  /** One key of an object spread `{...d, ...u}`: the user's key when it is given. */
  function Spread<T>(u: Option<T>, d: Option<T>): Option<T> {
    if u.Some? then u else d
  }

  /** What a rejected promise carries: the `SyntaxError` of `response.json()`
      on a body that is not JSON, the `TypeError` of reading a property of
      `null`, or an `Error` with its message. */
  datatype Thrown = SyntaxError | TypeError | Error(message: string)

  /** What `response.json()` resolves to: `null`, or another value together with
      what reading its `error` property gives (`None` when the property is
      absent, or for a number, string or boolean). */
  datatype JsonValue<T> = JsonNull | Parsed(value: T, errorKey: Option<string>)

  /** `a || d` where the default `d` is a string literal. */
  function StrOrDefault(a: Option<string>, d: string): string {
    if StrTruthy(a) then a.value else d
  }

  // ---------------------------------------------------------------------------
  // String predicates and counting
  // ---------------------------------------------------------------------------

  predicate StartsWith(s: string, p: string) {
    |p| <= |s| && s[..|p|] == p
  }

  predicate EndsWith(s: string, p: string) {
    |p| <= |s| && s[|s| - |p|..] == p
  }

  /** Number of occurrences of `c` in `s` (what `s.match(/c/g) || []).length` counts). */
  function Count(s: string, c: char): nat {
    if s == [] then 0 else (if s[0] == c then 1 else 0) + Count(s[1..], c)
  }

  lemma {:induction false} CountConcat(a: string, b: string, c: char)
    ensures Count(a + b, c) == Count(a, c) + Count(b, c)
  {
    if a == [] {
      assert a + b == b;
    } else {
      assert (a + b)[1..] == a[1..] + b;
      CountConcat(a[1..], b, c);
    }
  }

  lemma {:induction false} CountAbsent(s: string, c: char)
    requires c !in s
    ensures Count(s, c) == 0
  {
    if s != [] {
      assert c !in s[1..];
      CountAbsent(s[1..], c);
    }
  }

  /** A `startsWith` fact is kept when more text is appended. */
  lemma StartsWithAppend(s: string, t: string, p: string)
    requires StartsWith(s, p)
    ensures StartsWith(s + t, p)
  {
    assert (s + t)[..|p|] == s[..|p|];
  }

  /** An `endsWith` fact on a suffix of a string holds for the whole string. */
  lemma EndsWithPrepend(s: string, t: string, p: string)
    requires EndsWith(s, p)
    ensures EndsWith(t + s, p)
  {
    assert (t + s)[|t + s| - |p|..] == s[|s| - |p|..];
  }

  // ---------------------------------------------------------------------------
  // Whitespace and trim
  // ---------------------------------------------------------------------------

  /** The characters ECMAScript's `trim` and `parseInt` treat as white space or
      line terminators. */
  predicate IsWhiteSpace(c: char) {
    c == '\t' || c == '\U{000B}' || c == '\U{000C}' || c == ' ' || c == '\U{00A0}'
    || c == '\U{FEFF}' || c == '\U{1680}' || ('\U{2000}' <= c <= '\U{200A}')
    || c == '\U{202F}' || c == '\U{205F}' || c == '\U{3000}'
    || c == '\n' || c == '\r' || c == '\U{2028}' || c == '\U{2029}'
  }

  function TrimStart(s: string): (r: string)
    ensures r == [] || !IsWhiteSpace(r[0])
    ensures |r| <= |s| && r == s[|s| - |r|..]
    decreases |s|
  {
    if s != [] && IsWhiteSpace(s[0]) then TrimStart(s[1..]) else s
  }

  function TrimEnd(s: string): (r: string)
    ensures r == [] || !IsWhiteSpace(r[|r| - 1])
    ensures |r| <= |s| && r == s[..|r|]
    decreases |s|
  {
    if s != [] && IsWhiteSpace(s[|s| - 1]) then TrimEnd(s[..|s| - 1]) else s
  }

  /** `String.prototype.trim`. */
  function Trim(s: string): (r: string)
    ensures r == [] || (!IsWhiteSpace(r[0]) && !IsWhiteSpace(r[|r| - 1]))
  {
    var t := TrimStart(s);
    var r := TrimEnd(t);
    assert r != [] ==> r[0] == t[0];
    r
  }

  // ---------------------------------------------------------------------------
  // parseInt(s, 10)
  // ---------------------------------------------------------------------------

  predicate IsDigit(c: char) {
    '0' <= c <= '9'
  }

  /** The longest prefix of `s` made of decimal digits. */
  function DigitPrefix(s: string): (d: string)
    ensures StartsWith(s, d)
    ensures forall i :: 0 <= i < |d| ==> IsDigit(d[i])
    ensures |d| == |s| || !IsDigit(s[|d|])
    decreases |s|
  {
    if s != [] && IsDigit(s[0]) then [s[0]] + DigitPrefix(s[1..]) else []
  }

  /** The value of a string of decimal digits. */
  function DigitsValue(d: string): nat
    requires forall i :: 0 <= i < |d| ==> IsDigit(d[i])
  {
    if d == [] then 0
    else
      var last := d[|d| - 1];
      assert IsDigit(last);
      10 * DigitsValue(d[..|d| - 1]) + (last as int - '0' as int)
  }

  /** `parseInt(s, 10)`: leading white space is skipped, one optional sign is read,
      then the longest run of digits; no digits at all gives NaN. */
  function ParseInt(s: string): (x: JsNumber)
    ensures x == NaN <==> DigitPrefix(SignStripped(TrimStart(s))) == []
    ensures x.Num? ==> TrimStart(s) != [] && x.n == (if TrimStart(s)[0] == '-' then -1 else 1)
                         * DigitsValue(DigitPrefix(SignStripped(TrimStart(s))))
  {
    var t := TrimStart(s);
    var digits := DigitPrefix(SignStripped(t));
    if digits == [] then NaN
    else
      var v: int := DigitsValue(digits);
      if t[0] == '-' then Num(-v) else Num(v)
  }

  /** The text after one leading `+` or `-`, if any. */
  function SignStripped(t: string): string {
    if t != [] && (t[0] == '+' || t[0] == '-') then t[1..] else t
  }

  // ---------------------------------------------------------------------------
  // Number to string
  // ---------------------------------------------------------------------------

  function NatToString(n: nat): (s: string)
    ensures |s| >= 1
    ensures forall i :: 0 <= i < |s| ==> IsDigit(s[i])
  {
    var last := ['0' + (n % 10) as char];
    if n < 10 then last else NatToString(n / 10) + last
  }

  /** Reading the digits of `n` back gives `n`. */
  lemma {:induction false} NatToStringValue(n: nat)
    ensures DigitsValue(NatToString(n)) == n
  {
    var s := NatToString(n);
    if n >= 10 {
      NatToStringValue(n / 10);
      assert s[..|s| - 1] == NatToString(n / 10);
    }
  }

  /** Different numbers are written differently. */
  lemma NatToStringInjective(m: nat, n: nat)
    requires NatToString(m) == NatToString(n)
    ensures m == n
  {
    NatToStringValue(m);
    NatToStringValue(n);
  }

  lemma {:induction false} DigitPrefixAll(s: string)
    requires forall i :: 0 <= i < |s| ==> IsDigit(s[i])
    ensures DigitPrefix(s) == s
  {
    if s != [] {
      DigitPrefixAll(s[1..]);
    }
  }

  /** Template-literal interpolation `${n}` of an integer. */
  function IntToString(n: int): string {
    if n < 0 then "-" + NatToString(-n) else NatToString(n)
  }

  /** The text starts with `-` exactly for a negative number. */
  lemma IntToStringSign(n: int)
    ensures IntToString(n) != [] && (IntToString(n)[0] == '-' <==> n < 0)
  {
    if n >= 0 {
      assert IsDigit(NatToString(n)[0]);
    }
  }

  /** Different integers print differently. */
  lemma IntToStringInjective(m: int, n: int)
    requires IntToString(m) == IntToString(n)
    ensures m == n
  {
    IntToStringSign(m);
    IntToStringSign(n);
    if m < 0 {
      assert NatToString(-m) == IntToString(m)[1..];
      assert NatToString(-n) == IntToString(n)[1..];
      NatToStringInjective(-m, -n);
    } else {
      NatToStringInjective(m, n);
    }
  }

  /** The digit run of a string of digits followed by a non-digit is that string. */
  lemma {:induction false} DigitPrefixConcat(d: string, rest: string)
    requires forall i :: 0 <= i < |d| ==> IsDigit(d[i])
    requires rest == [] || !IsDigit(rest[0])
    ensures DigitPrefix(d + rest) == d
  {
    if d == [] {
      assert d + rest == rest;
    } else {
      assert (d + rest)[1..] == d[1..] + rest;
      DigitPrefixConcat(d[1..], rest);
      assert [d[0]] + d[1..] == d;
    }
  }

  /** `parseInt` reads back an interpolated integer, whatever non-digit text
      follows it: `parseInt('8080', 10)` is 8080 and `parseInt('-3px', 10)` is -3. */
  lemma ParseIntReads(n: int, rest: string)
    requires rest == [] || !IsDigit(rest[0])
    ensures ParseInt(IntToString(n) + rest) == Num(n)
  {
    var t := IntToString(n) + rest;
    IntToStringSign(n);
    var m: nat := if n < 0 then -n else n;
    var digits := NatToString(m);
    assert IsDigit(digits[0]);
    assert !IsWhiteSpace(t[0]);
    assert TrimStart(t) == t;
    if n < 0 {
      assert t[1..] == digits + rest;
    } else {
      assert t == digits + rest;
    }
    assert SignStripped(t) == digits + rest;
    DigitPrefixConcat(digits, rest);
    NatToStringValue(m);
  }

  // ---------------------------------------------------------------------------
  // Paths and the environment
  // ---------------------------------------------------------------------------

  /** `path.join(dir, name)` for a relative `name`, without `..`/`.` normalisation. */
  function PathJoin(dir: string, name: string): string {
    dir + "/" + name
  }

  /** `pathToFileURL(path).href` for an absolute POSIX path, without
      percent-encoding. */
  function FileUrl(path: string): string {
    "file://" + path
  }

  /** `process.env`: the variables that are set. */
  type Env = map<string, string>

  /** `process.env[name]`: `undefined` when the variable is not set. */
  function EnvVar(env: Env, name: string): Option<string> {
    if name in env then Some(env[name]) else None
  }

  // ---------------------------------------------------------------------------
  // split and join on one separator character
  // ---------------------------------------------------------------------------

  /** The index of the first `c` in `s`. */
  function IndexOf(s: string, c: char): (i: nat)
    requires c in s
    ensures i < |s| && s[i] == c && c !in s[..i]
  {
    if s[0] == c then 0
    else
      assert c in s[1..];
      var j := IndexOf(s[1..], c);
      assert s[..j + 1] == [s[0]] + s[1..][..j];
      j + 1
  }

  /** `s.split(sep)` for a one-character separator. */
  function Split(s: string, sep: char): (r: seq<string>)
    ensures |r| >= 1
    decreases |s|
  {
    if sep !in s then [s]
    else
      var i := IndexOf(s, sep);
      [s[..i]] + Split(s[i + 1..], sep)
  }

  /** `xs.join(sep)` for a one-character separator. */
  function Join(xs: seq<string>, sep: char): string {
    if xs == [] then ""
    else if |xs| == 1 then xs[0]
    else xs[0] + [sep] + Join(xs[1..], sep)
  }

  /** Splitting a join at its separator gives the joined pieces back, as long as
      there is at least one piece and no piece contains the separator. */
  lemma {:induction false} SplitJoin(xs: seq<string>, sep: char)
    requires |xs| >= 1
    requires forall i :: 0 <= i < |xs| ==> sep !in xs[i]
    ensures Split(Join(xs, sep), sep) == xs
  {
    if |xs| == 1 {
    } else {
      var rest := Join(xs[1..], sep);
      var s := xs[0] + [sep] + rest;
      assert s[|xs[0]|] == sep;
      assert s[..|xs[0]|] == xs[0];
      assert IndexOf(s, sep) == |xs[0]|;
      assert s[|xs[0]| + 1..] == rest;
      SplitJoin(xs[1..], sep);
    }
  }
}
