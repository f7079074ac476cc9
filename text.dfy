/**
 * The JavaScript string operations the worker relies on, over `string`
 * (a sequence of Unicode scalar values): `trim`, `startsWith`, `endsWith`,
 * `includes`, `indexOf`, `split` on one character, `join`, the ASCII case
 * mappings and decimal rendering of non-negative numbers.
 */
module Text {

  /** ECMAScript WhiteSpace and LineTerminator code points (what `trim` and `\s` remove). */
  predicate IsSpace(c: char) {
    || ('\t' <= c <= '\r')
    || c == ' ' || c == '\U{A0}' || c == '\U{1680}'
    || ('\U{2000}' <= c <= '\U{200A}')
    || c == '\U{2028}' || c == '\U{2029}' || c == '\U{202F}' || c == '\U{205F}'
    || c == '\U{3000}' || c == '\U{FEFF}'
  }

  /** `s.trimStart()`: drops the leading white space. */
  function TrimStart(s: string): (r: string)
    ensures |r| <= |s|
    ensures r == [] || !IsSpace(r[0])
  {
    if s == [] || !IsSpace(s[0]) then s else TrimStart(s[1..])
  }

  /** `s.trimEnd()`: drops the trailing white space. */
  function TrimEnd(s: string): (r: string)
    ensures |r| <= |s|
    ensures r == [] || !IsSpace(r[|r| - 1])
  {
    if s == [] || !IsSpace(s[|s| - 1]) then s else TrimEnd(s[..|s| - 1])
  }

  /** `s.trim()`. */
  function Trim(s: string): (r: string)
    ensures |r| <= |s|
    ensures r == [] || (!IsSpace(r[0]) && !IsSpace(r[|r| - 1]))
  {
    TrimEndDropsSpaces(TrimStart(s));
    TrimEnd(TrimStart(s))
  }

  /** `trimStart` removes a prefix of white space and nothing else. */
  lemma {:induction false} TrimStartDropsSpaces(s: string)
    ensures var r := TrimStart(s);
      r == s[|s| - |r|..] && forall i :: 0 <= i < |s| - |r| ==> IsSpace(s[i])
    decreases |s|
  {
    if s != [] && IsSpace(s[0]) {
      TrimStartDropsSpaces(s[1..]);
    }
  }

  /** `trimEnd` removes a suffix of white space and nothing else. */
  lemma {:induction false} TrimEndDropsSpaces(s: string)
    ensures var r := TrimEnd(s);
      r == s[..|r|] && forall i :: |r| <= i < |s| ==> IsSpace(s[i])
    decreases |s|
  {
    if s != [] && IsSpace(s[|s| - 1]) {
      TrimEndDropsSpaces(s[..|s| - 1]);
    }
  }

  /** `trim` drops white space at both ends and nothing else: `s` is the trim with white space before and after it. */
  lemma TrimDropsSpaces(s: string)
    ensures exists a: nat, b: nat ::
              && a <= b <= |s| && s[a..b] == Trim(s)
              && (forall i :: 0 <= i < a ==> IsSpace(s[i]))
              && (forall i :: b <= i < |s| ==> IsSpace(s[i]))
  {
    TrimStartDropsSpaces(s);
    var t := TrimStart(s);
    var a := |s| - |t|;
    TrimEndDropsSpaces(t);
    var b := a + |TrimEnd(t)|;
    assert s[a..b] == t[..|TrimEnd(t)|];
    forall i | b <= i < |s| ensures IsSpace(s[i]) {
      assert s[i] == t[i - a];
    }
  }

  /** Trimming never introduces a character. */
  lemma TrimKeepsOut(s: string, c: char)
    ensures c !in s ==> c !in Trim(s)
  {
    if c !in s {
      TrimStartDropsSpaces(s);
      var t := TrimStart(s);
      assert c !in t;
      TrimEndDropsSpaces(t);
    }
  }

  /** `trimStart` stops at the first non-space: it returns `s[a..]` when `s[..a]` is all white space. */
  lemma {:induction false} TrimStartAt(s: string, a: nat)
    requires a <= |s|
    requires forall i :: 0 <= i < a ==> IsSpace(s[i])
    requires a == |s| || !IsSpace(s[a])
    ensures TrimStart(s) == s[a..]
    decreases a
  {
    if a > 0 {
      assert IsSpace(s[0]);
      TrimStartAt(s[1..], a - 1);
      assert s[1..][a - 1..] == s[a..];
    }
  }

  /** `trimEnd` stops at the last non-space: it returns `s[..b]` when `s[b..]` is all white space. */
  lemma {:induction false} TrimEndAt(s: string, b: nat)
    requires b <= |s|
    requires forall i :: b <= i < |s| ==> IsSpace(s[i])
    requires b == 0 || !IsSpace(s[b - 1])
    ensures TrimEnd(s) == s[..b]
    decreases |s| - b
  {
    if b < |s| {
      assert IsSpace(s[|s| - 1]);
      TrimEndAt(s[..|s| - 1], b);
      assert s[..|s| - 1][..b] == s[..b];
    }
  }

  /**
   * `trim` keeps exactly the core of the string: whenever `s[..a]` and `s[b..]`
   * are all white space and `s[a..b]` is empty or starts and ends with a
   * non-space, the trim is `s[a..b]`.
   */
  lemma TrimIsCore(s: string, a: nat, b: nat)
    requires a <= b <= |s|
    requires forall i :: 0 <= i < a ==> IsSpace(s[i])
    requires forall i :: b <= i < |s| ==> IsSpace(s[i])
    requires a == b || (!IsSpace(s[a]) && !IsSpace(s[b - 1]))
    ensures Trim(s) == s[a..b]
  {
    if a == b {
      TrimStartAt(s, |s|);
    } else {
      TrimStartAt(s, a);
      var t := s[a..];
      TrimEndAt(t, b - a);
      assert t[..b - a] == s[a..b];
    }
  }

  /** A string without surrounding white space is its own trim. */
  lemma TrimOfTrimmed(s: string)
    requires s == [] || (!IsSpace(s[0]) && !IsSpace(s[|s| - 1]))
    ensures Trim(s) == s
  {
  }

  /** `s.startsWith(p)`. */
  predicate StartsWith(s: string, p: string) {
    |p| <= |s| && s[..|p|] == p
  }

  /** `s.endsWith(p)`. */
  predicate EndsWith(s: string, p: string) {
    |p| <= |s| && s[|s| - |p|..] == p
  }

  /** `s.includes(needle)`: some position of `s` starts with `needle`. */
  predicate Contains(s: string, needle: string)
    decreases |s|
  {
    StartsWith(s, needle) || (s != [] && Contains(s[1..], needle))
  }

  lemma {:induction false} ContainsPrefix(s: string, t: string, needle: string)
    requires Contains(s, needle)
    ensures Contains(s + t, needle)
    decreases |s|
  {
    if StartsWith(s, needle) {
      assert (s + t)[..|needle|] == s[..|needle|];
    } else {
      assert (s + t)[1..] == s[1..] + t;
      ContainsPrefix(s[1..], t, needle);
    }
  }

  lemma {:induction false} ContainsSuffix(s: string, t: string, needle: string)
    requires Contains(t, needle)
    ensures Contains(s + t, needle)
    decreases |s|
  {
    if s != [] {
      assert (s + t)[1..] == s[1..] + t;
      ContainsSuffix(s[1..], t, needle);
    } else {
      assert s + t == t;
    }
  }

  /** `s.indexOf(c)`: the first position of `c`, or -1. */
  function IndexOf(s: string, c: char): (r: int)
    ensures -1 <= r < |s|
    ensures r == -1 <==> c !in s
    ensures r >= 0 ==> s[r] == c && c !in s[..r]
  {
    if s == [] then -1
    else if s[0] == c then 0
    else
      var k := IndexOf(s[1..], c);
      if k == -1 then -1
      else assert s[..k + 1] == [s[0]] + s[1..][..k]; k + 1
  }

  /** `s.split(sep)` for a one-character separator: never empty, pieces free of `sep`. */
  function Split(s: string, sep: char): (r: seq<string>)
    ensures |r| >= 1
    ensures forall i :: 0 <= i < |r| ==> sep !in r[i]
    decreases |s|
  {
    if s == [] then [[]]
    else
      var rest := Split(s[1..], sep);
      if s[0] == sep then [[]] + rest else [[s[0]] + rest[0]] + rest[1..]
  }

  lemma {:induction false} SplitWithoutSeparator(a: string, sep: char)
    requires sep !in a
    ensures Split(a, sep) == [a]
    decreases |a|
  {
    if a != [] {
      SplitWithoutSeparator(a[1..], sep);
      assert [a[0]] + a[1..] == a;
    }
  }

  /** Splitting `a + sep + b`, where `a` has no separator, yields `a` and then the pieces of `b`. */
  lemma {:induction false} SplitAfterFirst(a: string, b: string, sep: char)
    requires sep !in a
    ensures Split(a + [sep] + b, sep) == [a] + Split(b, sep)
    decreases |a|
  {
    if a == [] {
      assert a + [sep] + b == [sep] + b;
      assert ([sep] + b)[1..] == b;
    } else {
      assert (a + [sep] + b)[1..] == a[1..] + [sep] + b;
      SplitAfterFirst(a[1..], b, sep);
      assert [a[0]] + a[1..] == a;
    }
  }

  /** Splitting a join of separator-free pieces gives the pieces back. */
  lemma {:induction false} SplitJoin(parts: seq<string>, sep: char)
    requires parts != []
    requires forall i :: 0 <= i < |parts| ==> sep !in parts[i]
    ensures Split(Join(parts, [sep]), sep) == parts
  {
    if |parts| == 1 {
      SplitWithoutSeparator(parts[0], sep);
    } else {
      var rest := Join(parts[1..], [sep]);
      assert Join(parts, [sep]) == parts[0] + [sep] + rest;
      SplitJoin(parts[1..], sep);
      SplitAfterFirst(parts[0], rest, sep);
      assert [parts[0]] + parts[1..] == parts;
    }
  }

  /** `parts.join(sep)`. */
  function Join(parts: seq<string>, sep: string): string
  {
    if parts == [] then []
    else if |parts| == 1 then parts[0]
    else parts[0] + sep + Join(parts[1..], sep)
  }

  /** The concatenation of all parts (`parts.join("")`). */
  function Concat(parts: seq<string>): string
  {
    if parts == [] then [] else parts[0] + Concat(parts[1..])
  }

  lemma {:induction false} ConcatAppend(a: seq<string>, b: seq<string>)
    ensures Concat(a + b) == Concat(a) + Concat(b)
  {
    if a != [] {
      assert (a + b)[1..] == a[1..] + b;
      ConcatAppend(a[1..], b);
    } else {
      assert a + b == b;
    }
  }

  /** Joining the pieces of a split with the separator gives the string back. */
  lemma {:induction false} JoinSplit(s: string, sep: char)
    ensures Join(Split(s, sep), [sep]) == s
    decreases |s|
  {
    if s != [] {
      JoinSplit(s[1..], sep);
      var rest := Split(s[1..], sep);
      if s[0] != sep {
        if |rest| > 1 {
          assert ([[s[0]] + rest[0]] + rest[1..])[1..] == rest[1..];
          assert Join(rest, [sep]) == rest[0] + [sep] + Join(rest[1..], [sep]);
        }
      }
    }
  }

  /** `s.replace(pat, rep)` with a string pattern: only the first occurrence is replaced. */
  function ReplaceFirst(s: string, pat: string, rep: string): (r: string)
    ensures !Contains(s, pat) ==> r == s
    ensures s != [] && rep != [] ==> r != []
    decreases |s|
  {
    if StartsWith(s, pat) then rep + s[|pat|..]
    else if s == [] then []
    else [s[0]] + ReplaceFirst(s[1..], pat, rep)
  }

  function AsciiLower(c: char): char {
    if 'A' <= c <= 'Z' then (c as int + 32) as char else c
  }

  function AsciiUpper(c: char): char {
    if 'a' <= c <= 'z' then (c as int - 32) as char else c
  }

  function DigitChar(d: nat): char
    requires d < 10
  {
    ('0' as int + d) as char
  }

  /** `String(n)` for a non-negative integer: its decimal digits, without leading zeros. */
  function NatToString(n: nat): (r: string)
    ensures |r| >= 1
    ensures forall i :: 0 <= i < |r| ==> '0' <= r[i] <= '9'
  {
    if n < 10 then [DigitChar(n)] else NatToString(n / 10) + [DigitChar(n % 10)]
  }

  /** `s.padStart(width, "0")`. */
  function PadZeros(s: string, width: nat): (r: string)
    ensures |r| == if |s| < width then width else |s|
    ensures EndsWith(r, s)
  {
    if |s| < width then seq(width - |s|, _ => '0') + s else s
  }

  /** `String(i)` for any integer. */
  function IntToString(i: int): (r: string)
    ensures |r| >= 1
  {
    if i < 0 then "-" + NatToString(-i) else NatToString(i)
  }

  function HexDigit(d: nat): char
    requires d < 16
  {
    if d < 10 then DigitChar(d) else ('a' as int + d - 10) as char
  }

  /** A character `JSON.stringify` copies into a string literal unchanged. */
  predicate JsonPlain(c: char) {
    c >= ' ' && c != '"' && c != '\\'
  }

  /** How `JSON.stringify` writes one character inside a string literal. */
  function JsonEscapeChar(c: char): (r: string)
    ensures JsonPlain(c) <==> r == [c]
    ensures !JsonPlain(c) ==> |r| >= 2 && r[0] == '\\'
  {
    if c == '"' then "\\\""
    else if c == '\\' then "\\\\"
    else if c == '\U{8}' then "\\b"
    else if c == '\t' then "\\t"
    else if c == '\n' then "\\n"
    else if c == '\U{C}' then "\\f"
    else if c == '\r' then "\\r"
    else if c < ' ' then "\\u00" + [HexDigit(c as int / 16), HexDigit(c as int % 16)]
    else [c]
  }

  function JsonEscape(s: string): string
  {
    if s == [] then [] else JsonEscapeChar(s[0]) + JsonEscape(s[1..])
  }

  /** `JSON.stringify(s)` for a string: quoted, with quotes, backslashes and control characters escaped. */
  function JsonQuote(s: string): (r: string)
    ensures |r| >= 2 && r[0] == '"' && r[|r| - 1] == '"'
  {
    "\"" + JsonEscape(s) + "\""
  }

  /** A string with nothing to escape is quoted verbatim. */
  lemma {:induction false} JsonEscapePlain(s: string)
    requires forall i :: 0 <= i < |s| ==> JsonPlain(s[i])
    ensures JsonEscape(s) == s
    decreases |s|
  {
    if s != [] {
      JsonEscapePlain(s[1..]);
      assert [s[0]] + s[1..] == s;
    }
  }

  /** Escaping never shortens a string, and lengthens it exactly when something needed escaping. */
  lemma {:induction false} JsonEscapeLength(s: string)
    ensures |JsonEscape(s)| >= |s|
    ensures |JsonEscape(s)| == |s| <==> forall i :: 0 <= i < |s| ==> JsonPlain(s[i])
    decreases |s|
  {
    if s != [] {
      JsonEscapeLength(s[1..]);
      if !JsonPlain(s[0]) {
        assert |JsonEscape(s)| > |s|;
      } else {
        assert forall i :: 1 <= i < |s| ==> s[i] == s[1..][i - 1];
      }
    }
  }

  /** A string cannot contain a needle one of whose characters it lacks. */
  lemma {:induction false} MissingCharExcludes(s: string, needle: string, c: char)
    requires c in needle && c !in s
    ensures !Contains(s, needle)
    decreases |s|
  {
    if s != [] {
      MissingCharExcludes(s[1..], needle, c);
    }
  }

  /** A needle that starts the second part of a concatenation is contained in it. */
  lemma ContainsAt(a: string, b: string, needle: string)
    requires StartsWith(b, needle)
    ensures Contains(a + b, needle)
  {
    ContainsSuffix(a, b, needle);
  }

  lemma ContainsSelf(s: string)
    ensures Contains(s, s)
  {
    assert StartsWith(s, s);
  }

  /** A needle contained in the middle part of a concatenation is contained in the whole. */
  lemma ContainsMiddle(a: string, b: string, c: string, needle: string)
    requires Contains(b, needle)
    ensures Contains(a + b + c, needle)
  {
    ContainsSuffix(a, b, needle);
    ContainsPrefix(a + b, c, needle);
  }

  /** Quoting a string that needs no escaping keeps it intact between the quotes. */
  lemma JsonQuoteContainsPlain(s: string)
    requires forall i :: 0 <= i < |s| ==> JsonPlain(s[i])
    ensures Contains(JsonQuote(s), s)
  {
    JsonEscapePlain(s);
    ContainsSelf(s);
    ContainsMiddle("\"", s, "\"", s);
  }

  /** Containment is transitive. */
  lemma {:induction false} ContainsTransitive(s: string, t: string, u: string)
    requires Contains(s, t) && Contains(t, u)
    ensures Contains(s, u)
    decreases |s|
  {
    if StartsWith(s, t) {
      assert s == t + s[|t|..];
      ContainsPrefix(t, s[|t|..], u);
    } else {
      ContainsTransitive(s[1..], t, u);
    }
  }

  /** Only a non-empty string contains a non-empty needle. */
  lemma ContainsNonEmpty(s: string, needle: string)
    requires Contains(s, needle) && needle != []
    ensures s != []
  {
  }
}
