/** The JavaScript string operations the application relies on, with their
    JavaScript meaning: `trim`, `split` on one character, `join`, and the
    `filter` that drops empty (falsy) strings. */
module Strings {

  /** The characters `trim` strips: the ASCII part of JavaScript's white space
      and line terminators. */
  predicate IsWhitespace(c: char) {
    c == ' ' || c == '\t' || c == '\n' || c == '\r' || c == '\U{000B}' || c == '\U{000C}'
  }

  predicate AllWhitespace(s: string) {
    forall i :: 0 <= i < |s| ==> IsWhitespace(s[i])
  }

  /** No white space at either end. */
  predicate Trimmed(s: string) {
    s == [] || (!IsWhitespace(s[0]) && !IsWhitespace(s[|s| - 1]))
  }

  /** Length of the longest prefix made of white space. */
  function LeadingWhitespace(s: string): (k: nat)
    ensures k <= |s|
    ensures forall i :: 0 <= i < k ==> IsWhitespace(s[i])
    ensures k < |s| ==> !IsWhitespace(s[k])
  {
    if s == [] || !IsWhitespace(s[0]) then 0 else 1 + LeadingWhitespace(s[1..])
  }

  /** Start of the longest suffix made of white space. */
  function TrailingWhitespace(s: string): (k: nat)
    ensures k <= |s|
    ensures forall i :: k <= i < |s| ==> IsWhitespace(s[i])
    ensures 0 < k ==> !IsWhitespace(s[k - 1])
  {
    if s == [] || !IsWhitespace(s[|s| - 1]) then |s| else TrailingWhitespace(s[..|s| - 1])
  }

  /** `s.trim()`: `s` without its leading and trailing white space. */
  function Trim(s: string): (t: string)
    ensures Trimmed(t)
    ensures t == [] <==> AllWhitespace(s)
    ensures Trimmed(s) ==> t == s
    ensures |t| <= |s|
  {
    var a, b := LeadingWhitespace(s), TrailingWhitespace(s);
    if a < b then s[a..b] else []
  }

  /** Trim removes exactly the white space around a trimmed core, so every
      string trims to the one core it is padded around. */
  lemma TrimPadded(w: string, t: string, w': string)
    requires AllWhitespace(w) && AllWhitespace(w') && Trimmed(t)
    ensures Trim(w + t + w') == t
  {
    var s := w + t + w';
    if t == [] {
      forall i | 0 <= i < |s| ensures IsWhitespace(s[i]) {
        if i < |w| { assert s[i] == w[i]; } else { assert s[i] == w'[i - |w|]; }
      }
    } else {
      var a, b := LeadingWhitespace(s), TrailingWhitespace(s);
      assert s[|w|] == t[0];
      assert s[|w| + |t| - 1] == t[|t| - 1];
      assert a == |w|;
      assert b == |w| + |t|;
      assert s[a..b] == t;
    }
  }

  /** The white space `trim` removes in front of the core. */
  function LeftPadding(s: string): (w: string)
    ensures AllWhitespace(w)
  {
    var a, b := LeadingWhitespace(s), TrailingWhitespace(s);
    if a < b then s[..a] else s
  }

  /** The white space `trim` removes after the core. */
  function RightPadding(s: string): (w: string)
    ensures AllWhitespace(w)
  {
    var a, b := LeadingWhitespace(s), TrailingWhitespace(s);
    if a < b then s[b..] else []
  }

  /** Every string is its trimmed core with white space around it. */
  lemma TrimSurrounded(s: string)
    ensures s == LeftPadding(s) + Trim(s) + RightPadding(s)
  {
  }

  /** `s.split(sep)` for a one-character separator: the pieces between the
      occurrences of `sep`, one more piece than there are occurrences. */
  function Split(s: string, sep: char): (parts: seq<string>)
    ensures |parts| == multiset(s)[sep] + 1
    ensures forall i :: 0 <= i < |parts| ==> sep !in parts[i]
  {
    if s == [] then [[]]
    else
      assert s == [s[0]] + s[1..];
      var rest := Split(s[1..], sep);
      if s[0] == sep then [[]] + rest
      else [[s[0]] + rest[0]] + rest[1..]
  }

  lemma ConcatAssoc(a: string, b: string, c: string)
    ensures a + b + c == a + (b + c)
  {
  }

  /** The number of characters in all the parts together. */
  function TotalLength(parts: seq<string>): nat {
    if parts == [] then 0 else |parts[0]| + TotalLength(parts[1..])
  }

  /** `parts.join(sep)`: empty for no parts; otherwise it starts with the
      first part and holds every part and one separator between each two. */
  function Join(parts: seq<string>, sep: string): (joined: string)
    ensures parts == [] ==> joined == []
    ensures parts != [] ==> parts[0] <= joined
    ensures parts != [] ==> |joined| == TotalLength(parts) + (|parts| - 1) * |sep|
  {
    if |parts| == 0 then []
    else if |parts| == 1 then parts[0]
    else parts[0] + sep + Join(parts[1..], sep)
  }

  /** Joining a first piece in front of the others. */
  lemma JoinCons(x: string, rest: seq<string>, sep: string)
    requires rest != []
    ensures Join([x] + rest, sep) == x + sep + Join(rest, sep)
  {
    assert ([x] + rest)[1..] == rest;
  }

  lemma {:induction false} JoinAppend(a: seq<string>, b: seq<string>, sep: string)
    requires a != [] && b != []
    ensures Join(a + b, sep) == Join(a, sep) + sep + Join(b, sep)
  {
    if |a| == 1 {
      assert (a + b)[1..] == b;
    } else {
      assert (a + b)[1..] == a[1..] + b;
      JoinAppend(a[1..], b, sep);
    }
  }

  /** Joining the pieces of a split with the separator gives back the string. */
  lemma {:induction false} SplitJoin(s: string, sep: char)
    ensures Join(Split(s, sep), [sep]) == s
  {
    if s != [] {
      var rest := Split(s[1..], sep);
      SplitJoin(s[1..], sep);
      if s[0] != sep && |rest| > 1 {
        assert ([[s[0]] + rest[0]] + rest[1..])[1..] == rest[1..];
      }
    }
  }

  /** Splitting a string with a separator-free prefix. */
  lemma {:induction false} SplitPrefix(x: string, y: string, sep: char)
    requires sep !in x
    ensures Split(x + y, sep) == [x + Split(y, sep)[0]] + Split(y, sep)[1..]
  {
    if x == [] {
      assert x + y == y;
      var p := Split(y, sep);
      assert x + p[0] == p[0];
      assert p == [p[0]] + p[1..];
    } else {
      assert (x + y)[0] == x[0];
      assert (x + y)[1..] == x[1..] + y;
      SplitPrefix(x[1..], y, sep);
      assert [x[0]] + (x[1..] + Split(y, sep)[0]) == x + Split(y, sep)[0];
    }
  }

  /** Splitting text joined from separator-free pieces gives back the pieces. */
  lemma {:induction false} JoinSplit(parts: seq<string>, sep: char)
    requires parts != []
    requires forall i :: 0 <= i < |parts| ==> sep !in parts[i]
    ensures Split(Join(parts, [sep]), sep) == parts
  {
    if |parts| == 1 {
      SplitPrefix(parts[0], [], sep);
      assert parts[0] + [] == parts[0];
    } else {
      var tail := Join(parts[1..], [sep]);
      JoinSplit(parts[1..], sep);
      assert Join(parts, [sep]) == parts[0] + ([sep] + tail);
      SplitPrefix(parts[0], [sep] + tail, sep);
      assert ([sep] + tail)[1..] == tail;
      assert parts[0] + [] == parts[0];
    }
  }

  /** `xs.filter(Boolean)` on strings: the non-empty strings of `xs`, that is,
      `xs` with every empty string taken out and nothing else. */
  function NonEmpty(xs: seq<string>): (r: seq<string>)
    ensures |r| <= |xs|
    ensures forall i :: 0 <= i < |r| ==> r[i] != []
  {
    if xs == [] then []
    else (if xs[0] == [] then [] else [xs[0]]) + NonEmpty(xs[1..])
  }

  /** The filter keeps every non-empty string as often as it occurs and
      drops every empty one. */
  lemma {:induction false} NonEmptyCounts(xs: seq<string>)
    ensures multiset(NonEmpty(xs)) == multiset(xs)[[] := 0]
  {
    if xs != [] {
      assert xs == [xs[0]] + xs[1..];
      NonEmptyCounts(xs[1..]);
    }
  }

  /** Every string the filter keeps comes from its input. */
  lemma {:induction false} NonEmptyFrom(xs: seq<string>)
    ensures forall i :: 0 <= i < |NonEmpty(xs)| ==> NonEmpty(xs)[i] in xs
  {
    if xs != [] {
      NonEmptyFrom(xs[1..]);
      var rest := NonEmpty(xs[1..]);
      forall i | 0 <= i < |NonEmpty(xs)| ensures NonEmpty(xs)[i] in xs {
        if xs[0] != [] && i > 0 {
          assert NonEmpty(xs)[i] == rest[i - 1];
          assert rest[i - 1] in xs[1..];
        } else if xs[0] == [] {
          assert NonEmpty(xs)[i] == rest[i];
          assert rest[i] in xs[1..];
        }
      }
    }
  }

  /** The filter drops nothing from strings that are all non-empty. */
  lemma {:induction false} NonEmptyKeepsAll(xs: seq<string>)
    requires forall i :: 0 <= i < |xs| ==> xs[i] != []
    ensures NonEmpty(xs) == xs
  {
    if xs != [] {
      NonEmptyKeepsAll(xs[1..]);
    }
  }

  /** The filter works piece by piece, so it keeps the order of `xs`. */
  lemma {:induction false} NonEmptyConcat(a: seq<string>, b: seq<string>)
    ensures NonEmpty(a + b) == NonEmpty(a) + NonEmpty(b)
  {
    if a == [] {
      assert a + b == b;
    } else {
      assert (a + b)[0] == a[0];
      assert (a + b)[1..] == a[1..] + b;
      NonEmptyConcat(a[1..], b);
    }
  }

  /** A character that is in no piece and not in the separator is not in the
      joined text. */
  lemma {:induction false} JoinExcludes(parts: seq<string>, sep: string, c: char)
    requires c !in sep
    requires forall i :: 0 <= i < |parts| ==> c !in parts[i]
    ensures c !in Join(parts, sep)
  {
    if |parts| > 1 {
      JoinExcludes(parts[1..], sep, c);
    }
  }

  /** Blocks of lines one after another with one empty line between
      neighbours; no blocks at all is a single empty line. */
  function BlankSeparated(blocks: seq<seq<string>>): (lines: seq<string>)
    requires forall i :: 0 <= i < |blocks| ==> blocks[i] != []
    ensures lines != []
  {
    if |blocks| == 0 then [[]]
    else if |blocks| == 1 then blocks[0]
    else blocks[0] + [[]] + BlankSeparated(blocks[1..])
  }

  /** Joining the joined blocks with a doubled separator is joining all their
      lines with one separator and an empty line between blocks. */
  lemma {:induction false} JoinBlocks(blocks: seq<seq<string>>, joined: seq<string>, sep: string)
    requires forall i :: 0 <= i < |blocks| ==> blocks[i] != []
    requires |joined| == |blocks|
    requires forall i :: 0 <= i < |blocks| ==> joined[i] == Join(blocks[i], sep)
    ensures Join(joined, sep + sep) == Join(BlankSeparated(blocks), sep)
  {
    if |blocks| > 1 {
      JoinBlocks(blocks[1..], joined[1..], sep);
      var rest := BlankSeparated(blocks[1..]);
      JoinAppend(blocks[0], [[]] + rest, sep);
      assert blocks[0] + [[]] + rest == blocks[0] + ([[]] + rest);
      assert ([[]] + rest)[1..] == rest;
    }
  }

  /** A character that occurs in no line of any block occurs in no line of
      the blank-separated whole. */
  lemma {:induction false} BlankSeparatedExcludes(blocks: seq<seq<string>>, c: char)
    requires forall i :: 0 <= i < |blocks| ==> blocks[i] != []
    requires forall i, j :: 0 <= i < |blocks| && 0 <= j < |blocks[i]| ==> c !in blocks[i][j]
    ensures forall k :: 0 <= k < |BlankSeparated(blocks)| ==> c !in BlankSeparated(blocks)[k]
  {
    if |blocks| > 1 {
      BlankSeparatedExcludes(blocks[1..], c);
      var rest := BlankSeparated(blocks[1..]);
      forall k | 0 <= k < |BlankSeparated(blocks)| ensures c !in BlankSeparated(blocks)[k] {
        if k < |blocks[0]| {
          assert BlankSeparated(blocks)[k] == blocks[0][k];
        } else if k > |blocks[0]| {
          assert BlankSeparated(blocks)[k] == rest[k - |blocks[0]| - 1];
        }
      }
    }
  }
}
