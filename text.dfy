/**
 * The string operations the components use, over Unicode scalar values (one
 * `char` each): `startsWith`, `includes`, `replace` of a first occurrence,
 * `split` on one character, `toLowerCase` on ASCII letters, and the regular
 * expression `\s+` replaced by a dash.
 */
module Text {
  import opened Common

  // ---------------------------------------------------------------------------
  // Prefixes and occurrences
  // ---------------------------------------------------------------------------

  /** `s.startsWith(prefix)`. */
  predicate StartsWith(s: string, prefix: string) {
    |prefix| <= |s| && s[..|prefix|] == prefix
  }

  /** `pat` occurs in `s` at position `i`. */
  predicate OccursAt(s: string, pat: string, i: nat) {
    i + |pat| <= |s| && s[i..i + |pat|] == pat
  }

  /** `s.includes(pat)`: a scan that tries each position in turn. */
  function Includes(s: string, pat: string): (b: bool)
    ensures b <==> exists i: nat :: OccursAt(s, pat, i)
    decreases |s|
  {
    if StartsWith(s, pat) then
      assert OccursAt(s, pat, 0);
      true
    else if s == [] then
      NowhereInEmpty(pat);
      false
    else
      OccurrenceShift(s, pat);
      Includes(s[1..], pat)
  }

  /** A pattern that is not a prefix of the empty string occurs nowhere in it. */
  lemma NowhereInEmpty(pat: string)
    requires !StartsWith([], pat)
    ensures forall i: nat :: !OccursAt([], pat, i)
  {
  }

  /** Past a position where `pat` does not start, its occurrences are those of the rest, moved by one. */
  lemma OccurrenceShift(s: string, pat: string)
    requires s != [] && !StartsWith(s, pat)
    ensures (exists i: nat :: OccursAt(s, pat, i)) <==> exists i: nat :: OccursAt(s[1..], pat, i)
  {
    if i: nat :| OccursAt(s, pat, i) {
      assert i != 0;
      assert s[1..][i - 1..i - 1 + |pat|] == s[i..i + |pat|];
      assert OccursAt(s[1..], pat, i - 1);
    }
    if i: nat :| OccursAt(s[1..], pat, i) {
      assert s[1..][i..i + |pat|] == s[i + 1..i + 1 + |pat|];
      assert OccursAt(s, pat, i + 1);
    }
  }

  /** `s.indexOf(pat)`: the first position where `pat` occurs. */
  function IndexOf(s: string, pat: string): (r: Option<nat>)
    ensures r.Some? ==> OccursAt(s, pat, r.value) && forall j: nat :: j < r.value ==> !OccursAt(s, pat, j)
    ensures r.None? <==> !Includes(s, pat)
    decreases |s|
  {
    if StartsWith(s, pat) then Some(0)
    else if s == [] then None
    else match IndexOf(s[1..], pat)
      case None => None
      case Some(i) => ShiftedFirst(s, pat, i); Some(i + 1)
  }

  /** The first occurrence in the rest, moved by one, is the first in `s` when `pat` does not start `s`. */
  lemma ShiftedFirst(s: string, pat: string, i: nat)
    requires s != [] && !StartsWith(s, pat)
    requires OccursAt(s[1..], pat, i) && forall j: nat :: j < i ==> !OccursAt(s[1..], pat, j)
    ensures OccursAt(s, pat, i + 1) && forall j: nat :: j < i + 1 ==> !OccursAt(s, pat, j)
  {
    assert s[1..][i..i + |pat|] == s[i + 1..i + 1 + |pat|];
    forall j: nat | j < i + 1 ensures !OccursAt(s, pat, j) {
      if 0 < j && j + |pat| <= |s| {
        assert s[1..][j - 1..j - 1 + |pat|] == s[j..j + |pat|];
        assert !OccursAt(s[1..], pat, j - 1);
      }
    }
  }

  /** `s.replace(pat, rep)` with a string pattern: only the first occurrence is replaced. */
  function ReplaceFirst(s: string, pat: string, rep: string): (r: string)
    ensures !Includes(s, pat) ==> r == s
  {
    match IndexOf(s, pat)
    case None => s
    case Some(i) => s[..i] + rep + s[i + |pat|..]
  }

  /** Removing a prefix with `replace(prefix, '')` leaves what follows the prefix. */
  lemma RemovePrefix(s: string, prefix: string)
    requires StartsWith(s, prefix)
    ensures ReplaceFirst(s, prefix, "") == s[|prefix|..]
  {
    assert IndexOf(s, prefix) == Some(0);
  }

  // ---------------------------------------------------------------------------
  // `split` on one character
  // ---------------------------------------------------------------------------

  /** How many times `c` occurs in `s`. */
  function Count(s: string, c: char): nat {
    multiset(s)[c]
  }

  /** The parts joined back with the separator between them. */
  function Join(parts: seq<string>, sep: char): string
    requires parts != []
  {
    if |parts| == 1 then parts[0] else parts[0] + [sep] + Join(parts[1..], sep)
  }

  /**
   * `s.split(sep)` for a one-character separator: the pieces between separators,
   * so one more piece than separators, and the empty string gives `['']`.
   */
  function Split(s: string, sep: char): (parts: seq<string>)
    ensures parts != []
  {
    if s == [] then [""]
    else
      var rest := Split(s[1..], sep);
      if s[0] == sep then [""] + rest else [[s[0]] + rest[0]] + rest[1..]
  }

  /** `split` gives one more part than there are separators. */
  lemma {:induction false} SplitCount(s: string, sep: char)
    ensures |Split(s, sep)| == Count(s, sep) + 1
  {
    if s != [] {
      SplitCount(s[1..], sep);
      assert s == [s[0]] + s[1..];
      assert multiset(s) == multiset{s[0]} + multiset(s[1..]);
    }
  }

  /** No part holds the separator. */
  lemma {:induction false} SplitPartsClean(s: string, sep: char)
    ensures forall p :: p in Split(s, sep) ==> sep !in p
  {
    if s != [] {
      var rest := Split(s[1..], sep);
      SplitPartsClean(s[1..], sep);
      var parts := Split(s, sep);
      if s[0] != sep {
        assert parts[1..] == rest[1..];
        assert forall p :: p in parts ==> p == parts[0] || p in rest;
      }
    }
  }

  /** No part holds the separator, and joining the parts gives the string back. */
  lemma {:induction false} SplitJoins(s: string, sep: char)
    ensures forall p :: p in Split(s, sep) ==> sep !in p
    ensures Join(Split(s, sep), sep) == s
  {
    SplitPartsClean(s, sep);
    if s != [] {
      var rest := Split(s[1..], sep);
      SplitJoins(s[1..], sep);
      var parts := Split(s, sep);
      if s[0] == sep {
        assert parts[1..] == rest;
        assert s == [sep] + s[1..];
      } else if |rest| == 1 {
        assert s == [s[0]] + rest[0];
      } else {
        assert parts[1..] == rest[1..];
        assert Join(rest, sep) == rest[0] + [sep] + Join(rest[1..], sep);
        assert s == [s[0]] + s[1..];
      }
    }
  }

  /** A string without the separator is split into itself alone. */
  lemma {:induction false} SplitNone(a: string, sep: char)
    requires sep !in a
    ensures Split(a, sep) == [a]
  {
    if a != [] {
      SplitNone(a[1..], sep);
      assert [a[0]] + a[1..] == a;
    }
  }

  /** A first piece without the separator is split off as the first part. */
  lemma {:induction false} SplitAfter(a: string, sep: char, rest: string)
    requires sep !in a
    ensures Split(a + [sep] + rest, sep) == [a] + Split(rest, sep)
  {
    if a == [] {
      assert ([] + [sep] + rest)[1..] == rest;
    } else {
      assert (a + [sep] + rest)[1..] == a[1..] + [sep] + rest;
      SplitAfter(a[1..], sep, rest);
      assert [a[0]] + a[1..] == a;
    }
  }

  /** Splitting a join of separator-free parts gives the parts back. */
  lemma {:induction false} SplitJoin(parts: seq<string>, sep: char)
    requires parts != [] && forall p :: p in parts ==> sep !in p
    ensures Split(Join(parts, sep), sep) == parts
  {
    if |parts| == 1 {
      SplitNone(parts[0], sep);
    } else {
      SplitJoin(parts[1..], sep);
      SplitAfter(parts[0], sep, Join(parts[1..], sep));
      assert [parts[0]] + parts[1..] == parts;
    }
  }

  // ---------------------------------------------------------------------------
  // Letter case and white space
  // ---------------------------------------------------------------------------

  /** `toLowerCase` on one character, for the ASCII letters. */
  function LowerChar(c: char): char {
    if 'A' <= c <= 'Z' then (c as int - 'A' as int + 'a' as int) as char else c
  }

  /** `s.toLowerCase()` for ASCII letters: every character lowered in place. */
  function Lower(s: string): (r: string)
    ensures |r| == |s| && forall i :: 0 <= i < |s| ==> r[i] == LowerChar(s[i])
  {
    seq(|s|, i requires 0 <= i < |s| => LowerChar(s[i]))
  }

  /** Lowering twice is lowering once. */
  lemma LowerIdempotent(s: string)
    ensures Lower(Lower(s)) == Lower(s)
  {
  }

  /** A character the JavaScript class `\s` matches: the white-space and line-terminator characters. */
  predicate IsWhitespace(c: char) {
    || c == '\t' || c == '\n' || c == '\U{000B}' || c == '\U{000C}' || c == '\r' || c == ' '
    || c == '\U{00A0}' || c == '\U{1680}' || ('\U{2000}' <= c <= '\U{200A}')
    || c == '\U{2028}' || c == '\U{2029}' || c == '\U{202F}' || c == '\U{205F}'
    || c == '\U{3000}' || c == '\U{FEFF}'
  }

  /** Lowering never makes or removes white space. */
  lemma LowerKeepsWhitespace(c: char)
    ensures IsWhitespace(LowerChar(c)) <==> IsWhitespace(c)
  {
  }

  /** `s` with its leading white space removed. */
  function DropWhitespace(s: string): (r: string)
    ensures |r| <= |s| && (r == [] || !IsWhitespace(r[0]))
  {
    if s != [] && IsWhitespace(s[0]) then DropWhitespace(s[1..]) else s
  }

  /** What is left after the leading white space is a suffix of `s`. */
  lemma {:induction false} DropIsSuffix(s: string)
    ensures s[|s| - |DropWhitespace(s)|..] == DropWhitespace(s)
  {
    if s != [] && IsWhitespace(s[0]) {
      DropIsSuffix(s[1..]);
      assert s[1..][|s[1..]| - |DropWhitespace(s[1..])|..] == s[|s| - |DropWhitespace(s)|..];
    }
  }

  /** `s.replace(/\s+/g, '-')`: every maximal run of white space becomes one `-`. */
  function DashWhitespace(s: string): (r: string)
    decreases |s|
  {
    if s == [] then []
    else if IsWhitespace(s[0]) then "-" + DashWhitespace(DropWhitespace(s[1..]))
    else [s[0]] + DashWhitespace(s[1..])
  }

  /** The dashed string holds no white space. */
  lemma {:induction false} DashedHasNoWhitespace(s: string)
    ensures forall i :: 0 <= i < |DashWhitespace(s)| ==> !IsWhitespace(DashWhitespace(s)[i])
    decreases |s|
  {
    if s != [] {
      if IsWhitespace(s[0]) {
        DashedHasNoWhitespace(DropWhitespace(s[1..]));
      } else {
        DashedHasNoWhitespace(s[1..]);
      }
    }
  }

  /** A string without white space is left as it is. */
  lemma {:induction false} DashWithoutWhitespace(s: string)
    requires forall i :: 0 <= i < |s| ==> !IsWhitespace(s[i])
    ensures DashWhitespace(s) == s
  {
    if s != [] {
      DashWithoutWhitespace(s[1..]);
      assert [s[0]] + s[1..] == s;
    }
  }

  /** Every character of the dashed string is a `-` or a character of `s` that is not white space. */
  lemma {:induction false} DashedFromSource(s: string)
    ensures forall c :: c in DashWhitespace(s) ==> c == '-' || (c in s && !IsWhitespace(c))
    decreases |s|
  {
    if s != [] {
      if IsWhitespace(s[0]) {
        var rest := DropWhitespace(s[1..]);
        DashedFromSource(rest);
        DropIsSuffix(s[1..]);
        forall c | c in rest ensures c in s {
          assert s[1..][|s[1..]| - |rest|..] == rest;
        }
      } else {
        DashedFromSource(s[1..]);
      }
    }
  }

  /** Leading white space followed by text that does not start with white space drops to that text. */
  lemma {:induction false} DropRun(ws: string, b: string)
    requires forall i :: 0 <= i < |ws| ==> IsWhitespace(ws[i])
    requires b == [] || !IsWhitespace(b[0])
    ensures DropWhitespace(ws + b) == b
  {
    if ws != [] {
      assert (ws + b)[1..] == ws[1..] + b;
      DropRun(ws[1..], b);
    } else {
      assert ws + b == b;
    }
  }

  /** Dropping leading white space stops inside a string that ends in a character that is not white space. */
  lemma {:induction false} DropAppend(x: string, t: string)
    requires x != [] && !IsWhitespace(x[|x| - 1])
    ensures DropWhitespace(x + t) == DropWhitespace(x) + t
    ensures DropWhitespace(x) != [] && DropWhitespace(x)[|DropWhitespace(x)| - 1] == x[|x| - 1]
  {
    if IsWhitespace(x[0]) {
      assert (x + t)[1..] == x[1..] + t;
      DropAppend(x[1..], t);
    }
  }

  /** A string ending in a character that is not white space is dashed on its own, whatever follows it. */
  lemma {:induction false} DashAppend(a: string, t: string)
    requires a != [] && !IsWhitespace(a[|a| - 1])
    ensures DashWhitespace(a + t) == DashWhitespace(a) + DashWhitespace(t)
    decreases |a|
  {
    var x := a + t;
    assert x[0] == a[0];
    assert x[1..] == a[1..] + t;
    if IsWhitespace(a[0]) {
      var d := DropWhitespace(a[1..]);
      DropAppend(a[1..], t);
      DashAppend(d, t);
      calc {
        DashWhitespace(x);
        "-" + DashWhitespace(DropWhitespace(a[1..] + t));
        "-" + DashWhitespace(d + t);
        "-" + (DashWhitespace(d) + DashWhitespace(t));
        ("-" + DashWhitespace(d)) + DashWhitespace(t);
      }
    } else if |a| == 1 {
      assert x[1..] == t;
      assert DashWhitespace(a) == [a[0]] + DashWhitespace([]);
    } else {
      DashAppend(a[1..], t);
      calc {
        DashWhitespace(x);
        [a[0]] + DashWhitespace(a[1..] + t);
        [a[0]] + (DashWhitespace(a[1..]) + DashWhitespace(t));
        ([a[0]] + DashWhitespace(a[1..])) + DashWhitespace(t);
      }
    }
  }

  /** A run of white space at the start becomes one `-`. */
  lemma DashLeadingRun(ws: string, b: string)
    requires ws != [] && forall i :: 0 <= i < |ws| ==> IsWhitespace(ws[i])
    requires b == [] || !IsWhitespace(b[0])
    ensures DashWhitespace(ws + b) == "-" + DashWhitespace(b)
  {
    var y := ws + b;
    assert y[0] == ws[0];
    assert y[1..] == ws[1..] + b;
    DropRun(ws[1..], b);
  }

  /**
   * A maximal run of white space between `a` and `b` becomes exactly one `-`,
   * and the text on either side is dashed on its own.
   */
  lemma DashRun(a: string, ws: string, b: string)
    requires ws != [] && forall i :: 0 <= i < |ws| ==> IsWhitespace(ws[i])
    requires a == [] || !IsWhitespace(a[|a| - 1])
    requires b == [] || !IsWhitespace(b[0])
    ensures DashWhitespace(a + ws + b) == DashWhitespace(a) + "-" + DashWhitespace(b)
  {
    if a == [] {
      DashLeadingRun(ws, b);
      assert a + ws + b == ws + b;
    } else {
      DashInnerRun(a, ws, b);
    }
  }

  /** A run of white space after text that ends in a character that is not white space. */
  lemma DashInnerRun(a: string, ws: string, b: string)
    requires ws != [] && forall i :: 0 <= i < |ws| ==> IsWhitespace(ws[i])
    requires a != [] && !IsWhitespace(a[|a| - 1])
    requires b == [] || !IsWhitespace(b[0])
    ensures DashWhitespace(a + ws + b) == DashWhitespace(a) + "-" + DashWhitespace(b)
  {
    DashLeadingRun(ws, b);
    assert a + ws + b == a + (ws + b);
    DashAppend(a, ws + b);
  }
}
