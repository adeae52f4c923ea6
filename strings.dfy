/**
 * The JavaScript string built-ins the chat relies on: `startsWith`,
 * `includes`, `split("\n")`, `split("")` and the `+` join of pieces.
 * Strings are sequences of characters; a character stands for one Unicode
 * scalar value, whereas JavaScript's `split("")`, `slice` and `length`
 * count UTF-16 code units.
 */
module Strings {

  /** `s.startsWith(p)` */
  predicate StartsWith(s: string, p: string) {
    |p| <= |s| && s[..|p|] == p
  }

  /**
   * `s.includes(sub)`, searching from the front. The empty string is found in
   * every string, and nothing longer than `s` is found in it.
   */
  predicate Contains(s: string, sub: string)
    ensures sub == [] ==> Contains(s, sub)
    ensures Contains(s, sub) ==> |sub| <= |s|
    decreases |s|
  {
    StartsWith(s, sub) || (|s| > 0 && Contains(s[1..], sub))
  }

  /** `sub` occurs in `s` starting at position `i`. */
  predicate OccursAt(s: string, sub: string, i: int) {
    0 <= i <= |s| - |sub| && s[i..i + |sub|] == sub
  }

  /** `includes` holds exactly when `sub` occurs at some position of `s`. */
  lemma {:induction false} ContainsIffOccurs(s: string, sub: string)
    ensures Contains(s, sub) <==> exists i :: OccursAt(s, sub, i)
    decreases |s|
  {
    if |s| > 0 {
      ContainsIffOccurs(s[1..], sub);
      forall i | 0 <= i <= |s| - 1 - |sub|
        ensures OccursAt(s[1..], sub, i) <==> OccursAt(s, sub, i + 1)
      {
        assert s[1..][i..i + |sub|] == s[i + 1..i + 1 + |sub|];
      }
      if exists i :: OccursAt(s, sub, i) {
        var i :| OccursAt(s, sub, i);
        if i > 0 {
          assert OccursAt(s[1..], sub, i - 1);
        }
      }
    }
    assert StartsWith(s, sub) <==> OccursAt(s, sub, 0);
  }

  lemma AppendAssociates(a: string, b: string, c: string)
    ensures a + b + c == a + (b + c)
  {
  }

  /** Gluing two newline-free texts gives a newline-free text. */
  lemma NoNewlineAppend(a: string, b: string)
    requires '\n' !in a && '\n' !in b
    ensures '\n' !in a + b
  {
    assert forall k :: 0 <= k < |a + b| ==> (a + b)[k] == if k < |a| then a[k] else b[k - |a|];
  }

  lemma NewlinesRegroup(line: string, rest: string)
    ensures line + "\n\n" + rest == line + "\n" + ("" + "\n" + rest)
  {
    assert "" + "\n" + rest == "\n" + rest;
  }

  lemma ConsCons<T>(a: T, b: T, r: seq<T>)
    ensures [a] + ([b] + r) == [a, b] + r
  {
    assert [a] + ([b] + r) == [a] + [b] + r;
  }

  /** The pieces glued together in order. */
  function Concat(pieces: seq<string>): string {
    if pieces == [] then [] else pieces[0] + Concat(pieces[1..])
  }

  lemma {:induction false} ConcatAppend(a: seq<string>, b: seq<string>)
    ensures Concat(a + b) == Concat(a) + Concat(b)
  {
    if a == [] {
      assert a + b == b;
    } else {
      assert (a + b)[0] == a[0];
      assert (a + b)[1..] == a[1..] + b;
      ConcatAppend(a[1..], b);
    }
  }

  /** `s.split("")`: one single-character string per position of `s`. */
  function Units(s: string): (units: seq<string>)
    ensures |units| == |s|
    ensures forall i :: 0 <= i < |s| ==> units[i] == [s[i]]
  {
    seq(|s|, i requires 0 <= i < |s| => [s[i]])
  }

  /** Splitting into units loses, reorders and duplicates nothing: joining them gives `s` back. */
  lemma {:induction false} ConcatUnits(s: string)
    ensures Concat(Units(s)) == s
  {
    if s != [] {
      assert Units(s)[1..] == Units(s[1..]);
      ConcatUnits(s[1..]);
    }
  }

  /** Position of the first `c` in `s`. */
  function IndexOf(s: string, c: char): (i: nat)
    requires c in s
    ensures i < |s| && s[i] == c && c !in s[..i]
  {
    if s[0] == c then 0
    else
      var j := IndexOf(s[1..], c);
      assert s[..j + 1] == [s[0]] + s[1..][..j];
      j + 1
  }

  /** `s.split("\n")`: the maximal newline-free pieces between newlines. */
  function Lines(s: string): (lines: seq<string>)
    ensures |lines| >= 1
    decreases |s|
  {
    if '\n' !in s then [s]
    else
      var i := IndexOf(s, '\n');
      [s[..i]] + Lines(s[i + 1..])
  }

  /** `lines.join("\n")` */
  function JoinLines(lines: seq<string>): string
    requires |lines| >= 1
  {
    if |lines| == 1 then lines[0] else lines[0] + "\n" + JoinLines(lines[1..])
  }

  /** No line produced by `split("\n")` contains a newline. */
  lemma {:induction false} LinesHaveNoNewline(s: string)
    ensures forall k :: 0 <= k < |Lines(s)| ==> '\n' !in Lines(s)[k]
    decreases |s|
  {
    if '\n' in s {
      LinesHaveNoNewline(s[IndexOf(s, '\n') + 1..]);
    }
  }

  /** The first `c` of `a + [c] + b` is right after `a` when `a` has none. */
  lemma {:induction false} IndexOfAfter(a: string, c: char, b: string)
    requires c !in a
    ensures IndexOf(a + [c] + b, c) == |a|
  {
    if a != [] {
      assert (a + [c] + b)[1..] == a[1..] + [c] + b;
      IndexOfAfter(a[1..], c, b);
    }
  }

  /** Splitting a text that starts with a newline-free line `a`. */
  lemma LinesCons(a: string, b: string)
    requires '\n' !in a
    ensures Lines(a + "\n" + b) == [a] + Lines(b)
  {
    var s := a + "\n" + b;
    IndexOfAfter(a, '\n', b);
    assert s[..|a|] == a;
    assert s[|a| + 1..] == b;
  }

  /** Joining the lines with newlines gives the text back. */
  lemma {:induction false} JoinLinesOfLines(s: string)
    ensures JoinLines(Lines(s)) == s
    decreases |s|
  {
    if '\n' in s {
      var i := IndexOf(s, '\n');
      JoinLinesOfLines(s[i + 1..]);
      assert Lines(s)[1..] == Lines(s[i + 1..]);
      assert s == s[..i] + "\n" + s[i + 1..];
    }
  }

  /** Splitting a join of newline-free lines gives the lines back. */
  lemma {:induction false} LinesOfJoinLines(lines: seq<string>)
    requires |lines| >= 1
    requires forall k :: 0 <= k < |lines| ==> '\n' !in lines[k]
    ensures Lines(JoinLines(lines)) == lines
  {
    if |lines| == 1 {
      assert Lines(lines[0]) == [lines[0]];
      assert lines == [lines[0]];
    } else {
      var rest := lines[1..];
      assert forall k :: 0 <= k < |rest| ==> '\n' !in rest[k] by {
        forall k | 0 <= k < |rest| ensures '\n' !in rest[k] {
          assert rest[k] == lines[k + 1];
        }
      }
      LinesOfJoinLines(rest);
      assert JoinLines(lines) == lines[0] + "\n" + JoinLines(rest);
      LinesCons(lines[0], JoinLines(rest));
      assert lines == [lines[0]] + rest;
    }
  }
}
