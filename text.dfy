/**
 * The string operations the source relies on, written out over `seq<char>`:
 * JavaScript's `trim`, `startsWith`, `includes`, `replace` (string pattern),
 * `split` (one-character separator) and `join`, Python's `endswith`, `str.join`
 * and the decimal rendering of an integer.
 */
module Text {
  import opened Base

  /** The characters JavaScript's `String.prototype.trim` removes: white space and line terminators. */
  predicate IsJsWhitespace(c: char) {
    c == '\t' || c == '\n' || c == '\U{000B}' || c == '\U{000C}' || c == '\r' || c == ' '
    || c == '\U{00A0}' || c == '\U{1680}' || ('\U{2000}' <= c <= '\U{200A}')
    || c == '\U{2028}' || c == '\U{2029}' || c == '\U{202F}' || c == '\U{205F}'
    || c == '\U{3000}' || c == '\U{FEFF}'
  }

  /** `s.trim() === ''`, i.e. `!s.trim()` in JavaScript. */
  predicate IsBlank(s: string) {
    forall i :: 0 <= i < |s| ==> IsJsWhitespace(s[i])
  }

  predicate StartsWith(s: string, prefix: string) {
    |prefix| <= |s| && s[..|prefix|] == prefix
  }

  predicate EndsWith(s: string, suffix: string) {
    |suffix| <= |s| && s[|s| - |suffix|..] == suffix
  }

  /** A string starts with its left operand. */
  lemma StartsWithAppend(a: string, b: string)
    ensures StartsWith(a + b, a)
  {
    assert (a + b)[..|a|] == a;
  }

  /** Whether `a + b` ends with a suffix no longer than `b` depends on `b` alone. */
  lemma EndsWithAppend(a: string, b: string, suffix: string)
    requires |suffix| <= |b|
    ensures EndsWith(a + b, suffix) <==> EndsWith(b, suffix)
  {
    assert (a + b)[|a + b| - |suffix|..] == b[|b| - |suffix|..];
  }

  /** One differing character, counted from the suffix's start, rules the suffix out. */
  lemma NotEndsWithAt(s: string, suffix: string, k: nat)
    requires k < |suffix| <= |s| && s[|s| - |suffix| + k] != suffix[k]
    ensures !EndsWith(s, suffix)
  {
    assert s[|s| - |suffix|..][k] == s[|s| - |suffix| + k];
  }

  /** `pattern` occurs in `s` starting at index `i`. */
  predicate OccursAt(s: string, pattern: string, i: nat) {
    i + |pattern| <= |s| && s[i..i + |pattern|] == pattern
  }

  /** The first index at or after `from` where `pattern` occurs. */
  function IndexFrom(s: string, pattern: string, from: nat): (r: Option<nat>)
    requires from <= |s|
    ensures r.Some? ==> from <= r.value && OccursAt(s, pattern, r.value)
    ensures r.Some? ==> forall j :: from <= j < r.value ==> !OccursAt(s, pattern, j)
    ensures r.None? ==> forall j :: from <= j <= |s| ==> !OccursAt(s, pattern, j)
    decreases |s| - from
  {
    if OccursAt(s, pattern, from) then Some(from)
    else if from == |s| then None
    else IndexFrom(s, pattern, from + 1)
  }

  /** JavaScript's `s.indexOf(pattern)`, with `None` for -1. */
  function IndexOf(s: string, pattern: string): (r: Option<nat>)
    ensures r.Some? ==> OccursAt(s, pattern, r.value)
    ensures r.Some? ==> forall j :: 0 <= j < r.value ==> !OccursAt(s, pattern, j)
    ensures r.None? <==> forall j :: 0 <= j <= |s| ==> !OccursAt(s, pattern, j)
  {
    IndexFrom(s, pattern, 0)
  }

  /** JavaScript's `s.includes(pattern)`. */
  predicate Contains(s: string, pattern: string) {
    IndexOf(s, pattern).Some?
  }

  /** JavaScript's `s.replace(pattern, replacement)` with a string pattern: only the first occurrence is replaced. */
  function ReplaceFirst(s: string, pattern: string, replacement: string): string {
    match IndexOf(s, pattern)
    case None => s
    case Some(i) => s[..i] + replacement + s[i + |pattern|..]
  }

  /** A prefix is its string's first occurrence, so replacing it by nothing strips it. */
  lemma ReplacePrefix(s: string, prefix: string)
    requires StartsWith(s, prefix)
    ensures ReplaceFirst(s, prefix, "") == s[|prefix|..]
  {
    assert OccursAt(s, prefix, 0);
  }

  /** `parts.join(sep)` in JavaScript, `sep.join(parts)` in Python. */
  function Join(parts: seq<string>, sep: string): string
    decreases |parts|
  {
    if |parts| == 0 then ""
    else if |parts| == 1 then parts[0]
    else parts[0] + sep + Join(parts[1..], sep)
  }

  /** JavaScript's `s.split(sep)` for a one-character separator: always at least one piece. */
  function Split(s: string, sep: char): (pieces: seq<string>)
    ensures |pieces| >= 1
    ensures forall k :: 0 <= k < |pieces| ==> sep !in pieces[k]
  {
    if |s| == 0 then [""]
    else if s[0] == sep then [""] + Split(s[1..], sep)
    else
      var rest := Split(s[1..], sep);
      [[s[0]] + rest[0]] + rest[1..]
  }

  /** Each item with `prefix` in front, as in the comprehension `[f"{prefix}{x}" for x in items]`. */
  function Prefixed(prefix: string, items: seq<string>): (r: seq<string>)
    ensures |r| == |items|
    ensures forall k :: 0 <= k < |items| ==> r[k] == prefix + items[k]
  {
    if items == [] then [] else [prefix + items[0]] + Prefixed(prefix, items[1..])
  }

  /** The concatenation of `"\n" + prefix + item` over the items: the lines a `join` adds after a heading. */
  function Lines(prefix: string, items: seq<string>): string {
    if items == [] then "" else "\n" + prefix + items[0] + Lines(prefix, items[1..])
  }

  /** Joining a heading and prefixed items with newlines puts each item on its own line, in order. */
  lemma {:induction false} JoinPrefixed(head: string, prefix: string, items: seq<string>)
    ensures Join([head] + Prefixed(prefix, items), "\n") == head + Lines(prefix, items)
    decreases |items|
  {
    if items != [] {
      var rest := Prefixed(prefix, items[1..]);
      assert [head] + Prefixed(prefix, items) == [head] + ([prefix + items[0]] + rest);
      assert ([head] + ([prefix + items[0]] + rest))[1..] == [prefix + items[0]] + rest;
      JoinPrefixed(prefix + items[0], prefix, items[1..]);
    }
  }

  /** Joining two non-empty runs of parts puts one separator between them. */
  lemma {:induction false} JoinAppend(a: seq<string>, b: seq<string>, sep: string)
    requires a != [] && b != []
    ensures Join(a + b, sep) == Join(a, sep) + sep + Join(b, sep)
  {
    if |a| > 1 {
      assert (a + b)[1..] == a[1..] + b;
      JoinAppend(a[1..], b, sep);
    } else {
      assert (a + b)[1..] == b;
    }
  }

  /** Joining with a heading and its prefixed items after some parts adds the heading line and one line per item. */
  lemma JoinHeadingAfter(first: seq<string>, heading: string, prefix: string, items: seq<string>)
    requires first != []
    ensures Join(first + ([heading] + Prefixed(prefix, items)), "\n")
         == Join(first, "\n") + "\n" + heading + Lines(prefix, items)
  {
    JoinPrefixed(heading, prefix, items);
    JoinAppend(first, [heading] + Prefixed(prefix, items), "\n");
  }

  /** Splitting text that starts with a separator-free line peels that line off. */
  lemma {:induction false} SplitAfterLine(line: string, sep: char, rest: string)
    requires sep !in line
    ensures Split(line + [sep] + rest, sep) == [line] + Split(rest, sep)
  {
    if line != [] {
      var s := line + [sep] + rest;
      assert s[0] == line[0] && s[0] != sep;
      assert s[1..] == line[1..] + [sep] + rest;
      SplitAfterLine(line[1..], sep, rest);
      var r := Split(s[1..], sep);
      assert r == [line[1..]] + Split(rest, sep);
      assert [s[0]] + r[0] == line;
      assert r[1..] == Split(rest, sep);
    } else {
      assert (line + [sep] + rest)[1..] == rest;
    }
  }

  /** Splitting the join of separator-free lines gives those lines back. */
  lemma {:induction false} SplitJoin(lines: seq<string>, sep: char)
    requires lines != []
    requires forall k :: 0 <= k < |lines| ==> sep !in lines[k]
    ensures Split(Join(lines, [sep]), sep) == lines
  {
    if |lines| == 1 {
      SplitNoSeparator(lines[0], sep);
    } else {
      SplitAfterLine(lines[0], sep, Join(lines[1..], [sep]));
      SplitJoin(lines[1..], sep);
    }
  }

  /** Text without the separator splits into itself alone. */
  lemma {:induction false} SplitNoSeparator(s: string, sep: char)
    requires sep !in s
    ensures Split(s, sep) == [s]
  {
    if s != [] {
      assert sep !in s[1..];
      SplitNoSeparator(s[1..], sep);
      assert s[0] != sep;
      assert [s[0]] + s[1..] == s;
    }
  }

  /** Joining the pieces of a split restores the text. */
  lemma {:induction false} JoinSplit(s: string, sep: char)
    ensures Join(Split(s, sep), [sep]) == s
  {
    if |s| > 0 {
      JoinSplit(s[1..], sep);
      var rest := Split(s[1..], sep);
      if s[0] == sep {
        if |rest| == 1 {
          assert Join([""] + rest, [sep]) == "" + [sep] + rest[0];
        } else {
          assert ([""] + rest)[1..] == rest;
        }
      } else {
        var pieces := [[s[0]] + rest[0]] + rest[1..];
        if |rest| == 1 {
          assert Join(pieces, [sep]) == [s[0]] + rest[0];
        } else {
          assert pieces[1..] == rest[1..];
          assert Join(rest, [sep]) == rest[0] + [sep] + Join(rest[1..], [sep]);
        }
        assert s == [s[0]] + s[1..];
      }
    }
  }

  /** The decimal digit for `d < 10`. */
  function Digit(d: nat): char
    requires d < 10
  {
    "0123456789"[d]
  }

  /** Python's `str(n)` / `f"{n}"` for a non-negative integer. */
  function NatToString(n: nat): (r: string)
    ensures |r| >= 1
    ensures forall k :: 0 <= k < |r| ==> '0' <= r[k] <= '9'
  {
    if n < 10 then [Digit(n)] else NatToString(n / 10) + [Digit(n % 10)]
  }
}
