/**
 * String helpers the handlers rely on: ECMAScript whitespace, trim,
 * whitespace replacement, and join/split on a one-character separator.
 */
module Text {

  /**
   * ECMAScript WhiteSpace and LineTerminator code points: the set that
   * String.prototype.trim removes and that the regular-expression class
   * \s matches.
   */
  predicate IsWhitespace(c: char)
  {
    if c <= ' ' then
      c == ' ' || ('\t' <= c <= '\r')
    else
      '\U{A0}' <= c &&
      (c == '\U{A0}' || c == '\U{1680}' || ('\U{2000}' <= c <= '\U{200A}')
       || c == '\U{2028}' || c == '\U{2029}' || c == '\U{202F}' || c == '\U{205F}'
       || c == '\U{3000}' || c == '\U{FEFF}')
  }

  /** Drops the leading whitespace: what remains is a suffix that starts with a non-blank. */
  function TrimStart(s: string): (r: string)
    ensures |r| <= |s| && r == s[|s| - |r|..]
    ensures r == [] || !IsWhitespace(r[0])
    ensures forall i :: 0 <= i < |s| - |r| ==> IsWhitespace(s[i])
  {
    if s != [] && IsWhitespace(s[0]) then TrimStart(s[1..]) else s
  }

  /** Drops the trailing whitespace: what remains is a prefix that ends with a non-blank. */
  function TrimEnd(s: string): (r: string)
    ensures |r| <= |s| && r == s[..|r|]
    ensures r == [] || !IsWhitespace(r[|r| - 1])
    ensures forall i :: |r| <= i < |s| ==> IsWhitespace(s[i])
  {
    if s != [] && IsWhitespace(s[|s| - 1]) then TrimEnd(s[..|s| - 1]) else s
  }

  /** String.prototype.trim. */
  function Trim(s: string): (r: string)
    ensures |r| <= |s|
    ensures r == [] <==> forall i :: 0 <= i < |s| ==> IsWhitespace(s[i])
    ensures r == [] || (!IsWhitespace(r[0]) && !IsWhitespace(r[|r| - 1]))
  {
    TrimEnd(TrimStart(s))
  }

  /** The trimmed text is one infix of s with only whitespace on either side of it. */
  lemma TrimIsInfix(s: string)
    ensures exists i :: 0 <= i <= |s| && Trim(s) <= s[i..]
                        && (forall k :: 0 <= k < i ==> IsWhitespace(s[k]))
                        && (forall k :: |Trim(s)| <= k < |s[i..]| ==> IsWhitespace(s[i..][k]))
  {
    var t := TrimStart(s);
    var i := |s| - |t|;
    assert t == s[i..];
  }

  /** s.replace(/\s/g, '_'): every whitespace character becomes '_', everything else stays. */
  function ReplaceWhitespace(s: string): (r: string)
    ensures |r| == |s|
    ensures forall i :: 0 <= i < |s| && !IsWhitespace(s[i]) ==> r[i] == s[i]
    ensures forall i :: 0 <= i < |s| && IsWhitespace(s[i]) ==> r[i] == '_'
    ensures forall i :: 0 <= i < |r| ==> !IsWhitespace(r[i])
  {
    seq(|s|, i requires 0 <= i < |s| => if IsWhitespace(s[i]) then '_' else s[i])
  }

  /**
   * Splits s at the first occurrence of c: the field before it, and the
   * rest, which is empty or starts with c.
   */
  function TakeUntil(s: string, c: char): (r: (string, string))
    ensures r.0 + r.1 == s
    ensures c !in r.0
    ensures r.1 == [] || r.1[0] == c
  {
    if s == [] || s[0] == c then ([], s)
    else
      var (f, rest) := TakeUntil(s[1..], c);
      ([s[0]] + f, rest)
  }

  /** The contract of TakeUntil determines its result. */
  lemma {:induction false} TakeUntilAt(a: string, b: string, c: char)
    requires c !in a
    requires b == [] || b[0] == c
    ensures TakeUntil(a + b, c) == (a, b)
  {
    if a == [] {
      assert a + b == b;
    } else {
      assert (a + b)[1..] == a[1..] + b;
      TakeUntilAt(a[1..], b, c);
      assert [a[0]] + a[1..] == a;
    }
  }

  /** Array.prototype.join with a one-character separator. */
  function Join(parts: seq<string>, sep: char): string
  {
    if |parts| == 0 then []
    else if |parts| == 1 then parts[0]
    else parts[0] + [sep] + Join(parts[1..], sep)
  }

  /** String.prototype.split with a one-character separator. */
  function Split(s: string, sep: char): (r: seq<string>)
    ensures |r| >= 1
    ensures forall i :: 0 <= i < |r| ==> sep !in r[i]
    decreases |s|
  {
    var (f, rest) := TakeUntil(s, sep);
    if rest == [] then [f] else [f] + Split(rest[1..], sep)
  }

  lemma JoinCons(h: string, tail: seq<string>, sep: char)
    ensures Join([h] + tail, sep) == if tail == [] then h else h + [sep] + Join(tail, sep)
  {
    if tail != [] {
      assert ([h] + tail)[1..] == tail;
    }
  }

  /** Splitting a join of separator-free parts gives the parts back. */
  lemma {:induction false} SplitJoin(parts: seq<string>, sep: char)
    requires |parts| >= 1
    requires forall i :: 0 <= i < |parts| ==> sep !in parts[i]
    ensures Split(Join(parts, sep), sep) == parts
  {
    if |parts| == 1 {
      TakeUntilAt(parts[0], [], sep);
      assert parts[0] + [] == parts[0];
    } else {
      var tail := Join(parts[1..], sep);
      assert Join(parts, sep) == parts[0] + ([sep] + tail);
      TakeUntilAt(parts[0], [sep] + tail, sep);
      assert ([sep] + tail)[1..] == tail;
      SplitJoin(parts[1..], sep);
      assert parts == [parts[0]] + parts[1..];
    }
  }

  /** Joining what Split returns rebuilds the string. */
  lemma {:induction false} JoinSplit(s: string, sep: char)
    ensures Join(Split(s, sep), sep) == s
    decreases |s|
  {
    var (f, rest) := TakeUntil(s, sep);
    if rest != [] {
      JoinSplit(rest[1..], sep);
      JoinCons(f, Split(rest[1..], sep), sep);
      assert rest == [sep] + rest[1..];
    }
  }

  /** A character in a join is the separator or comes from one of the parts. */
  lemma {:induction false} NotInJoin(parts: seq<string>, sep: char, x: char)
    requires x != sep
    requires forall i :: 0 <= i < |parts| ==> x !in parts[i]
    ensures x !in Join(parts, sep)
  {
    if |parts| > 1 {
      NotInJoin(parts[1..], sep, x);
    }
  }
}
