/**
 * The JavaScript built-ins that the application's own logic leans on:
 * optional values (`undefined`), `String.prototype.trim` and
 * `String.prototype.split` with a one-character separator.
 * Strings are sequences of Unicode scalar values (`char`); JavaScript's
 * code-unit lengths differ from these only for text above U+FFFF.
 */
module Js {

  /** A value that may be `undefined`. */
  datatype Option<+T> = None | Some(value: T) {
    /** `x || fallback` for a value whose only falsy form is `undefined`. */
    function GetOr(fallback: T): T {
      match this
      case Some(v) => v
      case None => fallback
    }
  }

  /** `s || fallback` on an optional string: both `undefined` and `""` are falsy. */
  function OrElse(s: Option<string>, fallback: string): (r: string)
    ensures s.Some? && s.value != [] ==> r == s.value
    ensures s.None? || s.value == [] ==> r == fallback
  {
    if s.Some? && s.value != [] then s.value else fallback
  }

  /**
   * The characters `trim` removes: ECMAScript WhiteSpace (TAB, VT, FF, SPACE,
   * NO-BREAK SPACE, ZERO WIDTH NO-BREAK SPACE and the Unicode "Zs" spaces)
   * and LineTerminator (LF, CR, LINE SEPARATOR, PARAGRAPH SEPARATOR).
   */
  predicate IsWhitespace(c: char) {
    c == '\t' || c == '\n' || c == '\U{000B}' || c == '\U{000C}' || c == '\r' ||
    c == ' ' || c == '\U{00A0}' || c == '\U{1680}' ||
    ('\U{2000}' <= c <= '\U{200A}') ||
    c == '\U{2028}' || c == '\U{2029}' || c == '\U{202F}' || c == '\U{205F}' ||
    c == '\U{3000}' || c == '\U{FEFF}'
  }

  /** Every character of `s` is one that `trim` removes. */
  predicate AllWhitespace(s: string) {
    forall i :: 0 <= i < |s| ==> IsWhitespace(s[i])
  }

  /** `s` with its leading whitespace removed. */
  function TrimStart(s: string): (r: string)
    ensures |r| <= |s| && r == s[|s| - |r|..]
    ensures AllWhitespace(s[..|s| - |r|])
    ensures r == [] || !IsWhitespace(r[0])
  {
    if s != [] && IsWhitespace(s[0]) then TrimStart(s[1..]) else s
  }

  /** `s` with its trailing whitespace removed. */
  function TrimEnd(s: string): (r: string)
    ensures |r| <= |s| && r == s[..|r|]
    ensures AllWhitespace(s[|r|..])
    ensures r == [] || !IsWhitespace(r[|r| - 1])
  {
    if s != [] && IsWhitespace(s[|s| - 1]) then TrimEnd(s[..|s| - 1]) else s
  }

  /**
   * `s.trim()`: `s` with its leading and trailing whitespace removed. The
   * result is empty exactly when `s` is all whitespace.
   */
  function Trim(s: string): (r: string)
    ensures exists k :: KeptSlice(s, r, k)
    ensures r == [] <==> AllWhitespace(s)
    ensures r != [] ==> !IsWhitespace(r[0]) && !IsWhitespace(r[|r| - 1])
  {
    TrimFacts(s);
    TrimEnd(TrimStart(s))
  }

  /** The three facts of `Trim`'s contract, about trimming the start and then the end. */
  lemma TrimFacts(s: string)
    ensures var r := TrimEnd(TrimStart(s));
            && (exists k :: KeptSlice(s, r, k))
            && (r == [] <==> AllWhitespace(s))
            && (r != [] ==> !IsWhitespace(r[0]) && !IsWhitespace(r[|r| - 1]))
  {
    TrimEmpty(s);
    TrimEnds(s);
    TrimMiddle(s);
  }

  /** `r` is the slice of `s` at offset `k`, with only whitespace before and after it. */
  predicate KeptSlice(s: string, r: string, k: int) {
    && 0 <= k <= |s| - |r| && r == s[k..k + |r|]
    && AllWhitespace(s[..k]) && AllWhitespace(s[k + |r|..])
  }

  /** Trimming keeps a middle slice of `s` and drops only whitespace around it. */
  lemma TrimMiddle(s: string)
    ensures exists k :: KeptSlice(s, TrimEnd(TrimStart(s)), k)
  {
    var t := TrimStart(s);
    var r := TrimEnd(t);
    var k := |s| - |t|;
    assert t == s[k..];
    assert r == t[..|r|];
    assert s[k + |r|..] == t[|r|..];
    assert KeptSlice(s, r, k);
  }

  /** Trimming both ends leaves nothing exactly when every character is whitespace. */
  lemma TrimEmpty(s: string)
    ensures TrimEnd(TrimStart(s)) == [] <==> AllWhitespace(s)
  {
    var t := TrimStart(s);
    var r := TrimEnd(t);
    var k := |s| - |t|;
    if r == [] {
      assert t[|r|..] == t;
      assert t == [];
      assert s[..k] == s;
    } else {
      assert t[0] == s[k];
      assert !IsWhitespace(s[k]);
    }
  }

  /** What survives trimming starts and ends with a character `trim` keeps. */
  lemma TrimEnds(s: string)
    ensures var r := TrimEnd(TrimStart(s));
            r != [] ==> !IsWhitespace(r[0]) && !IsWhitespace(r[|r| - 1])
  {
    var t := TrimStart(s);
    var r := TrimEnd(t);
    if r != [] {
      assert r[0] == t[0];
    }
  }

  /**
   * `!s.trim()`: the guard the form handlers use to ignore blank input.
   * By `Trim`'s contract this holds exactly when `Trim(s) == []`.
   */
  predicate IsBlank(s: string) {
    AllWhitespace(s)
  }

  /** A string that starts and ends with a kept character is its own trim. */
  lemma TrimOfTrimmed(s: string)
    requires s != [] && !IsWhitespace(s[0]) && !IsWhitespace(s[|s| - 1])
    ensures Trim(s) == s
  {
    assert TrimStart(s) == s;
    assert TrimEnd(s) == s;
  }

  /** Trimming a trimmed string changes nothing. */
  lemma TrimIdempotent(s: string)
    ensures Trim(Trim(s)) == Trim(s)
  {
    if Trim(s) != [] {
      TrimOfTrimmed(Trim(s));
    }
  }

  /**
   * `s.split(sep)` for a one-character separator: the pieces between the
   * separators, so there is always at least one piece and none holds `sep`.
   */
  function Split(s: string, sep: char): (r: seq<string>)
    ensures |r| >= 1
    ensures forall i :: 0 <= i < |r| ==> sep !in r[i]
    ensures |r| == 1 <==> sep !in s
  {
    if s == [] then [[]]
    else
      var rest := Split(s[1..], sep);
      if s[0] == sep then [[]] + rest
      else [[s[0]] + rest[0]] + rest[1..]
  }

  /** `pieces.join(sep)`, the inverse of `Split`. */
  function Join(pieces: seq<string>, sep: char): (s: string)
    requires |pieces| >= 1
  {
    if |pieces| == 1 then pieces[0] else pieces[0] + [sep] + Join(pieces[1..], sep)
  }

  /** Joining the pieces of a split gives the original string back. */
  lemma {:induction false} JoinSplit(s: string, sep: char)
    ensures Join(Split(s, sep), sep) == s
  {
    if s != [] {
      var rest := Split(s[1..], sep);
      JoinSplit(s[1..], sep);
      if s[0] == sep {
        assert Split(s, sep)[1..] == rest;
      } else {
        var r := Split(s, sep);
        if |rest| == 1 {
          assert r == [[s[0]] + rest[0]];
        } else {
          assert r[1..] == rest[1..];
          assert Join(rest, sep) == rest[0] + [sep] + Join(rest[1..], sep);
        }
      }
    }
  }

  /** Splitting joined pieces that hold no separator gives the pieces back. */
  lemma {:induction false} SplitJoin(pieces: seq<string>, sep: char)
    requires |pieces| >= 1
    requires forall i :: 0 <= i < |pieces| ==> sep !in pieces[i]
    ensures Split(Join(pieces, sep), sep) == pieces
  {
    if |pieces| == 1 {
      SplitNoSeparator(pieces[0], sep);
    } else {
      SplitJoin(pieces[1..], sep);
      SplitPrefix(pieces[0], Join(pieces[1..], sep), sep);
      assert Join(pieces, sep) == pieces[0] + ([sep] + Join(pieces[1..], sep));
    }
  }

  /** A string without the separator splits into itself alone. */
  lemma {:induction false} SplitNoSeparator(s: string, sep: char)
    requires sep !in s
    ensures Split(s, sep) == [s]
  {
    if s != [] {
      SplitNoSeparator(s[1..], sep);
      assert [s[0]] + s[1..] == s;
    }
  }

  /** A separator-free head `a` becomes the first piece of `a + [sep] + b`. */
  lemma {:induction false} SplitPrefix(a: string, b: string, sep: char)
    requires sep !in a
    ensures Split(a + ([sep] + b), sep) == [a] + Split(b, sep)
  {
    if a == [] {
      assert a + ([sep] + b) == [sep] + b;
      assert ([sep] + b)[1..] == b;
    } else {
      SplitPrefix(a[1..], b, sep);
      assert (a + ([sep] + b))[1..] == a[1..] + ([sep] + b);
      assert [a[0]] + a[1..] == a;
    }
  }
}
