/** Values and string operations shared by every component: the optional and
    failure wrappers, and the small part of Python's `str` behaviour that the
    system relies on (ASCII case mapping, substring search, prefixes, strip,
    split, join and decimal rendering of integers). */
module Common {

  datatype Option<+T> = None | Some(value: T) {
    function GetOr(default: T): T {
      match this
      case Some(v) => v
      case None => default
    }
  }

  /** An operation that either yields a value or raises; `Err` carries the
      exception's class name and message. */
  datatype Result<+T> = Ok(value: T) | Err(error: string)

  /** A value of the JSON-like dictionaries the services pass around. */
  datatype Value = Null | Bool(b: bool) | Int(i: int) | Str(s: string) | Dict(entries: map<string, Value>)

  /** An optional string as a dictionary value: `None` becomes null. */
  function OptStr(o: Option<string>): Value {
    if o.Some? then Str(o.value) else Null
  }

  function Max(a: int, b: int): int { if a < b then b else a }
  function Min(a: int, b: int): int { if a < b then a else b }

  // ---------------------------------------------------------------- characters

  predicate IsDigit(c: char) { '0' <= c <= '9' }

  /** ASCII whitespace as recognised by `str.strip` and `str.split`. */
  predicate IsSpace(c: char) {
    c == ' ' || c == '\t' || c == '\n' || c == '\r' || c == '\U{000B}' || c == '\U{000C}'
  }

  predicate IsLetter(c: char) { 'a' <= c <= 'z' || 'A' <= c <= 'Z' }

  function LowerChar(c: char): char {
    if 'A' <= c <= 'Z' then (c as int + 32) as char else c
  }

  function UpperChar(c: char): char {
    if 'a' <= c <= 'z' then (c as int - 32) as char else c
  }

  /** `s.lower()`, for the ASCII letters. */
  function Lower(s: string): (r: string)
    ensures |r| == |s|
  {
    if s == [] then [] else [LowerChar(s[0])] + Lower(s[1..])
  }

  lemma {:induction false} LowerAt(s: string, i: nat)
    requires i < |s|
    ensures Lower(s)[i] == LowerChar(s[i])
  {
    if i > 0 { LowerAt(s[1..], i - 1); }
  }

  /** Lower-casing twice is lower-casing once. */
  lemma LowerIdempotent(s: string)
    ensures Lower(Lower(s)) == Lower(s)
  {
    forall i | 0 <= i < |s|
      ensures Lower(Lower(s))[i] == Lower(s)[i]
    {
      LowerAt(s, i);
      LowerAt(Lower(s), i);
    }
  }

  // ------------------------------------------------------------------ searching

  predicate StartsWith(s: string, prefix: string) {
    |prefix| <= |s| && s[..|prefix|] == prefix
  }

  predicate EndsWith(s: string, suffix: string) {
    |suffix| <= |s| && s[|s| - |suffix|..] == suffix
  }

  /** `a + b + c` begins with `a` and ends with `c`. */
  lemma Affixes(a: string, b: string, c: string)
    ensures StartsWith(a + b + c, a) && EndsWith(a + b + c, c)
  {
    assert (a + b + c)[..|a|] == a;
    assert (a + b + c)[|a + b|..] == c;
  }

  predicate OccursAt(haystack: string, needle: string, i: int) {
    0 <= i && i + |needle| <= |haystack| && haystack[i..i + |needle|] == needle
  }

  /** `b` occurs in `a + b + c` right after `a`. */
  lemma Infix(a: string, b: string, c: string)
    ensures OccursAt(a + b + c, b, |a|) && Contains(a + b + c, b)
  {
    assert (a + b + c)[|a|..|a| + |b|] == b;
    assert OccursAt(a + b + c, b, |a|);
  }

  /** Python's `needle in haystack` on strings. */
  predicate Contains(haystack: string, needle: string) {
    exists i | 0 <= i <= |haystack| - |needle| :: OccursAt(haystack, needle, i)
  }

  /** `any(word in text for word in words)`. */
  predicate ContainsAny(text: string, words: seq<string>) {
    exists k | 0 <= k < |words| :: Contains(text, words[k])
  }

  lemma PrefixContained(s: string, prefix: string)
    requires StartsWith(s, prefix)
    ensures Contains(s, prefix)
  {
    assert OccursAt(s, prefix, 0);
  }

  /** The entries of a name-to-id table whose lower-cased name occurs in the
      lower-cased text, in table order: the name matching every entity
      extractor of the system performs. */
  function Mentioned(table: seq<(string, string)>, text: string): seq<(string, string)> {
    if table == [] then []
    else
      var rest := Mentioned(table[..|table| - 1], text);
      var e := table[|table| - 1];
      if Contains(Lower(text), Lower(e.0)) then rest + [e] else rest
  }

  /** An entry is extracted exactly when the table has it and its name is
      mentioned. */
  lemma {:induction false} MentionedMembers(table: seq<(string, string)>, text: string)
    ensures forall e :: e in Mentioned(table, text) <==> e in table && Contains(Lower(text), Lower(e.0))
    decreases |table|
  {
    if table != [] {
      var n := |table| - 1;
      MentionedMembers(table[..n], text);
      assert table == table[..n] + [table[n]];
    }
  }

  // ------------------------------------------------------------ building strings

  /** `s[:n]`. */
  function Take(s: string, n: nat): (r: string)
    ensures |r| == Min(n, |s|)
    ensures r == s[..Min(n, |s|)]
  {
    if |s| <= n then s else s[..n]
  }

  /** `sep.join(parts)`. */
  function Join(sep: string, parts: seq<string>): string {
    if parts == [] then ""
    else if |parts| == 1 then parts[0]
    else Join(sep, parts[..|parts| - 1]) + sep + parts[|parts| - 1]
  }

  /** The first `k` parts, joined, begin the joined whole. */
  lemma {:induction false} JoinPrefix(sep: string, parts: seq<string>, k: nat)
    requires 1 <= k <= |parts|
    ensures StartsWith(Join(sep, parts), Join(sep, parts[..k]))
    decreases |parts|
  {
    if k < |parts| {
      var n := |parts| - 1;
      JoinPrefix(sep, parts[..n], k);
      assert parts[..n][..k] == parts[..k];
      var a := Join(sep, parts[..n]);
      var p := Join(sep, parts[..k]);
      assert Join(sep, parts) == a + sep + parts[n];
      assert (a + sep + parts[n])[..|p|] == a[..|p|];
    } else {
      assert parts[..k] == parts;
    }
  }

  /** `s.replace(pattern, replacement)`, scanning left to right without overlaps. */
  function Replace(s: string, pattern: string, replacement: string): string
    requires pattern != []
    decreases |s|
  {
    if |s| < |pattern| then s
    else if s[..|pattern|] == pattern then replacement + Replace(s[|pattern|..], pattern, replacement)
    else [s[0]] + Replace(s[1..], pattern, replacement)
  }

  /** Replacing a one-character pattern by text without that character
      removes it. */
  lemma {:induction false} ReplaceRemoves(s: string, c: char, replacement: string)
    requires c !in replacement
    ensures c !in Replace(s, [c], replacement)
    decreases |s|
  {
    if |s| >= 1 {
      ReplaceRemoves(s[1..], c, replacement);
    }
  }

  /** Replacing never brings in a character absent from both the text and
      the replacement. */
  lemma {:induction false} ReplaceNoNew(s: string, pattern: string, replacement: string, c: char)
    requires pattern != [] && c !in s && c !in replacement
    ensures c !in Replace(s, pattern, replacement)
    decreases |s|
  {
    if |s| >= |pattern| {
      if s[..|pattern|] == pattern {
        assert forall k | 0 <= k < |s[|pattern|..]| :: s[|pattern|..][k] == s[|pattern| + k];
        ReplaceNoNew(s[|pattern|..], pattern, replacement, c);
      } else {
        assert forall k | 0 <= k < |s[1..]| :: s[1..][k] == s[1 + k];
        ReplaceNoNew(s[1..], pattern, replacement, c);
      }
    }
  }

  /** A prefix one longer is the prefix and the next element. */
  lemma PrefixSnoc<T>(s: seq<T>, i: nat)
    requires i < |s|
    ensures s[..i + 1] == s[..i] + [s[i]]
  {
  }

  /** `s.strip()`. */
  function Strip(s: string): string {
    StripEnd(StripStart(s))
  }

  function StripStart(s: string): (r: string)
    ensures |r| <= |s| && r == s[|s| - |r|..]
    ensures r != [] ==> !IsSpace(r[0])
  {
    if s != [] && IsSpace(s[0]) then StripStart(s[1..]) else s
  }

  function StripEnd(s: string): (r: string)
    ensures |r| <= |s|
  {
    if s != [] && IsSpace(s[|s| - 1]) then StripEnd(s[..|s| - 1]) else s
  }

  /** `s.split()`: the maximal runs of non-whitespace characters, in order. */
  function SplitWhitespace(s: string): seq<string>
    decreases |s|
  {
    var t := StripStart(s);
    if t == [] then []
    else
      var n := TokenLength(t);
      [t[..n]] + SplitWhitespace(t[n..])
  }

  function TokenLength(t: string): (n: nat)
    ensures n <= |t|
    ensures t != [] && !IsSpace(t[0]) ==> n > 0
    ensures forall i | 0 <= i < n :: !IsSpace(t[i])
  {
    if t == [] || IsSpace(t[0]) then 0 else 1 + TokenLength(t[1..])
  }

  /** A token of `s.split()`: non-empty, free of whitespace, and without any
      character `c` that `s` lacks. */
  predicate CleanToken(token: string, c: char) {
    token != [] && c !in token && forall j | 0 <= j < |token| :: !IsSpace(token[j])
  }

  lemma SliceLacks(s: string, i: nat, j: nat, c: char)
    requires i <= j <= |s| && c !in s
    ensures c !in s[i..j]
  {
  }

  predicate AllClean(tokens: seq<string>, c: char) {
    forall i | 0 <= i < |tokens| :: CleanToken(tokens[i], c)
  }

  lemma ConsClean(token: string, tokens: seq<string>, c: char)
    requires CleanToken(token, c) && AllClean(tokens, c)
    ensures AllClean([token] + tokens, c)
  {
    forall i | 0 <= i < |[token] + tokens|
      ensures CleanToken(([token] + tokens)[i], c)
    {
      if i > 0 {
        assert ([token] + tokens)[i] == tokens[i - 1];
      }
    }
  }

  /** Every token of `s.split()` is non-empty and free of whitespace, and no
      token holds a character the text lacks. */
  lemma {:induction false} SplitWhitespaceTokens(s: string, c: char)
    requires c !in s
    ensures AllClean(SplitWhitespace(s), c)
    decreases |s|
  {
    var t := StripStart(s);
    if t != [] {
      var n := TokenLength(t);
      HeadToken(s, c);
      SplitWhitespaceTokens(t[n..], c);
      ConsClean(t[..n], SplitWhitespace(t[n..]), c);
    }
  }

  /** The first token of a text with some non-whitespace is clean, and the
      rest of the text is shorter and still lacks what the text lacks. */
  lemma HeadToken(s: string, c: char)
    requires c !in s && StripStart(s) != []
    ensures var t := StripStart(s); var n := TokenLength(t);
      CleanToken(t[..n], c) && c !in t[n..] && |t[n..]| < |s|
  {
    var t := StripStart(s);
    var n := TokenLength(t);
    SliceLacks(s, |s| - |t|, |s|, c);
    SliceLacks(t, 0, n, c);
    SliceLacks(t, n, |t|, c);
  }

  // ----------------------------------------------------------- decimal numbers

  function DigitChar(d: nat): char
    requires d < 10
  {
    "0123456789"[d]
  }

  /** `str(n)` for a non-negative integer. */
  function NatToString(n: nat): (r: string)
    ensures |r| > 0
    ensures forall i | 0 <= i < |r| :: IsDigit(r[i])
  {
    if n < 10 then [DigitChar(n)] else NatToString(n / 10) + [DigitChar(n % 10)]
  }

  /** `str(i)` for any integer. */
  function IntToString(i: int): string {
    if i < 0 then "-" + NatToString(-i) else NatToString(i)
  }

  /** The value of a non-empty run of decimal digits. */
  function DigitsValue(s: string): nat
    requires forall i | 0 <= i < |s| :: IsDigit(s[i])
  {
    if s == [] then 0
    else
      assert IsDigit(s[|s| - 1]);
      DigitsValue(s[..|s| - 1]) * 10 + (s[|s| - 1] as int - '0' as int)
  }

  lemma {:induction false} DigitsValueOfNatToString(n: nat)
    ensures DigitsValue(NatToString(n)) == n
  {
    if n >= 10 {
      var r := NatToString(n);
      DigitsValueOfNatToString(n / 10);
      assert r[..|r| - 1] == NatToString(n / 10);
    }
  }

  // ------------------------------------------------------------- collections

  /** Merging into an empty dictionary copies it. */
  lemma UpdateEmpty<K, V>(m: map<K, V>)
    ensures map[] + m == m
  {
    assert (map[] + m).Keys == m.Keys;
  }

  predicate Distinct<T(==)>(l: seq<T>) {
    forall i, j | 0 <= i < j < |l| :: l[i] != l[j]
  }

  /** `l` lists every element of `s` exactly once. */
  predicate IsEnumeration<T(==)>(l: seq<T>, s: set<T>) {
    (forall x | x in l :: x in s) && (forall x | x in s :: x in l) && Distinct(l)
  }

  /** `list(s)`: Python iterates a set in an order it does not specify, so
      every enumeration is a possible outcome. */
  method ListOf<T(==)>(s: set<T>) returns (l: seq<T>)
    ensures IsEnumeration(l, s)
    ensures |l| == |s|
  {
    l := [];
    var rest := s;
    while rest != {}
      invariant rest <= s
      invariant forall x :: x in l <==> x in s && x !in rest
      invariant Distinct(l)
      invariant |l| + |rest| == |s|
      decreases |rest|
    {
      var x :| x in rest;
      l := l + [x];
      rest := rest - {x};
    }
  }
}
