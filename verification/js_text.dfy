/**
 The few JavaScript string and array operations the bot relies on, with their
 ECMAScript semantics written out: `includes`, `replace` with a string pattern
 (first occurrence only, `$`-patterns in the replacement), `substring(0, k)`,
 `slice(0, k)`, `slice(-n)`, `join` and ASCII `toLowerCase`. `IndexOf` is the
 search behind `includes` and `replace`; `Split` only serves to show that a join
 separates back into its parts.
 A `char` is one Unicode scalar value: a character outside the Basic Multilingual
 Plane counts once here, where JavaScript's `.length` counts two UTF-16 units.
 */
module JsText {
  import opened Wrappers

  /** `pat` occurs in `s` starting at position `i`. */
  predicate OccursAt(s: string, pat: string, i: int) {
    0 <= i && i + |pat| <= |s| && s[i..i + |pat|] == pat
  }

  /** `i` is the leftmost occurrence of `pat` in `s`. */
  predicate FirstOccurrence(s: string, pat: string, i: int) {
    OccursAt(s, pat, i) && forall j :: 0 <= j < i ==> !OccursAt(s, pat, j)
  }

  predicate StartsWith(s: string, pat: string) {
    |pat| <= |s| && s[..|pat|] == pat
  }

  /** `s.indexOf(pat)`, with None for JavaScript's -1. */
  function IndexOf(s: string, pat: string): (r: Option<nat>)
    ensures r.Some? ==> r.value + |pat| <= |s|
    decreases |s|
  {
    if StartsWith(s, pat) then Some(0)
    else if |s| == 0 then None
    else
      var rest := IndexOf(s[1..], pat);
      if rest.None? then None else Some(rest.value + 1)
  }

  /** `s.includes(pat)`. */
  predicate Includes(s: string, pat: string) {
    IndexOf(s, pat).Some?
  }

  lemma ShiftOccurrence(s: string, pat: string, j: nat)
    requires |s| > 0
    ensures OccursAt(s, pat, j + 1) <==> OccursAt(s[1..], pat, j)
  {
    if j + 1 + |pat| <= |s| {
      assert s[j + 1..j + 1 + |pat|] == s[1..][j..j + |pat|];
    }
  }

  /** `indexOf` returns exactly the leftmost occurrence, and -1 only when there is none. */
  lemma {:induction false} IndexOfFindsFirst(s: string, pat: string)
    ensures IndexOf(s, pat).Some? ==> FirstOccurrence(s, pat, IndexOf(s, pat).value)
    ensures IndexOf(s, pat).None? ==> forall j :: !OccursAt(s, pat, j)
    decreases |s|
  {
    if StartsWith(s, pat) {
      assert OccursAt(s, pat, 0);
    } else if |s| == 0 {
    } else {
      IndexOfFindsFirst(s[1..], pat);
      assert !OccursAt(s, pat, 0);
      var rest := IndexOf(s[1..], pat);
      if rest.Some? {
        ShiftOccurrence(s, pat, rest.value);
        forall j | 0 <= j < rest.value + 1 ensures !OccursAt(s, pat, j) {
          if j > 0 { ShiftOccurrence(s, pat, j - 1); }
        }
      } else {
        forall j ensures !OccursAt(s, pat, j) {
          if j > 0 { ShiftOccurrence(s, pat, j - 1); }
        }
      }
    }
  }

  /** `includes` holds exactly when some occurrence exists. */
  lemma IncludesIffOccurs(s: string, pat: string)
    ensures Includes(s, pat) <==> exists j :: OccursAt(s, pat, j)
  {
    IndexOfFindsFirst(s, pat);
  }

  lemma FirstOccurrenceUnique(s: string, pat: string, i: int, k: int)
    requires FirstOccurrence(s, pat, i) && FirstOccurrence(s, pat, k)
    ensures i == k
  {
  }

  /**
   The replacement text `String.prototype.replace` inserts for a string pattern:
   `$$` is a dollar, `$&` the match, `` $` `` the text before it, `$'` the text after it.
   A string pattern has no capture groups, so `$1` and `$<` stay literal.
   */
  function Expand(rep: string, matched: string, before: string, after: string): (r: string)
    ensures '$' !in rep ==> r == rep
    decreases |rep|
  {
    if |rep| == 0 then ""
    else if rep[0] == '$' && |rep| >= 2 && rep[1] == '$' then "$" + Expand(rep[2..], matched, before, after)
    else if rep[0] == '$' && |rep| >= 2 && rep[1] == '&' then matched + Expand(rep[2..], matched, before, after)
    else if rep[0] == '$' && |rep| >= 2 && rep[1] == '`' then before + Expand(rep[2..], matched, before, after)
    else if rep[0] == '$' && |rep| >= 2 && rep[1] == '\'' then after + Expand(rep[2..], matched, before, after)
    else
      assert '$' !in rep ==> '$' !in rep[1..];
      assert [rep[0]] + rep[1..] == rep;
      [rep[0]] + Expand(rep[1..], matched, before, after)
  }

  /** `s.replace(pat, rep)` with a string pattern: only the first occurrence is replaced. */
  function ReplaceFirst(s: string, pat: string, rep: string): (r: string)
    ensures !Includes(s, pat) ==> r == s
    ensures Includes(s, pat) && '$' !in rep ==> |r| == |s| - |pat| + |rep|
  {
    var at := IndexOf(s, pat);
    if at.None? then s
    else
      var i := at.value;
      s[..i] + Expand(rep, pat, s[..i], s[i + |pat|..]) + s[i + |pat|..]
  }

  /**
   `replace` leaves a string without the pattern alone, and otherwise rewrites the
   leftmost occurrence only: everything before and after it, later occurrences
   included, is kept.
   */
  lemma ReplaceFirstSpec(s: string, pat: string, rep: string)
    ensures (forall j :: !OccursAt(s, pat, j)) ==> ReplaceFirst(s, pat, rep) == s
    ensures forall i :: FirstOccurrence(s, pat, i) ==>
              ReplaceFirst(s, pat, rep) == s[..i] + Expand(rep, pat, s[..i], s[i + |pat|..]) + s[i + |pat|..]
  {
    IndexOfFindsFirst(s, pat);
    var at := IndexOf(s, pat);
    if at.None? {
    } else {
      forall i | FirstOccurrence(s, pat, i)
        ensures ReplaceFirst(s, pat, rep) == s[..i] + Expand(rep, pat, s[..i], s[i + |pat|..]) + s[i + |pat|..]
      {
        FirstOccurrenceUnique(s, pat, i, at.value);
      }
    }
  }

  /** `s` contains neither brace. */
  predicate BraceFree(s: string) {
    '{' !in s && '}' !in s
  }

  /** In a brace-free context, a pattern that starts with `{` occurs exactly where it was put. */
  lemma OnlyOccurrenceInContext(pre: string, pat: string, post: string)
    requires '{' !in pre && |pat| > 0 && pat[0] == '{'
    ensures FirstOccurrence(pre + pat + post, pat, |pre|)
  {
    var s := pre + pat + post;
    assert s[|pre|..|pre| + |pat|] == pat;
    forall j | 0 <= j < |pre| ensures !OccursAt(s, pat, j) {
      assert s[j] == pre[j];
    }
  }

  /**
   Replacing a `{`-led pattern placed in text whose prefix has no `{` rewrites that
   very occurrence; a replacement without `$` lands verbatim.
   */
  lemma ReplaceInContext(pre: string, pat: string, post: string, rep: string)
    requires '{' !in pre && |pat| > 0 && pat[0] == '{' && '$' !in rep
    ensures ReplaceFirst(pre + pat + post, pat, rep) == pre + rep + post
  {
    var s := pre + pat + post;
    OnlyOccurrenceInContext(pre, pat, post);
    ReplaceFirstSpec(s, pat, rep);
    assert s[..|pre|] == pre;
    assert s[|pre| + |pat|..] == post;
  }

  /** A pattern that starts with `{` never occurs in text with no `{`. */
  lemma NoOccurrenceWithoutBrace(s: string, pat: string)
    requires '{' !in s && |pat| > 0 && pat[0] == '{'
    ensures forall j :: !OccursAt(s, pat, j)
  {
  }

  /** JavaScript `s.substring(0, k)`: a negative end counts as 0, a large one as the length. */
  function Substring(s: string, k: int): (r: string)
    ensures r <= s
    ensures |r| == if k < 0 then 0 else if k > |s| then |s| else k
  {
    if k < 0 then [] else if k > |s| then s else s[..k]
  }

  /** JavaScript `xs.slice(0, k)`: a negative end counts back from the length. */
  function SliceTo<T>(xs: seq<T>, k: int): (r: seq<T>)
    ensures r <= xs
    ensures k >= 0 ==> |r| == if k > |xs| then |xs| else k
    ensures k < 0 ==> |r| == if |xs| + k < 0 then 0 else |xs| + k
  {
    var end := if k < 0 then |xs| + k else k;
    if end < 0 then [] else if end > |xs| then xs else xs[..end]
  }

  /** JavaScript `xs.slice(-n)`: the last `n` elements, or all of them when there are fewer. */
  function LastN<T>(xs: seq<T>, n: nat): (r: seq<T>)
    ensures |r| == if |xs| < n then |xs| else n
    ensures forall k :: 0 <= k < |r| ==> r[k] == xs[|xs| - |r| + k]
  {
    if |xs| <= n then xs else xs[|xs| - n..]
  }

  /** JavaScript `xs.join(sep)`. */
  function Join(xs: seq<string>, sep: string): string
    decreases |xs|
  {
    if |xs| == 0 then ""
    else if |xs| == 1 then xs[0]
    else xs[0] + sep + Join(xs[1..], sep)
  }

  /** Splits on one separator character, the inverse of `Join` for separator-free parts. */
  function Split(s: string, sep: char): seq<string>
    decreases |s|
  {
    var at := IndexOf(s, [sep]);
    if at.None? then [s]
    else [s[..at.value]] + Split(s[at.value + 1..], sep)
  }

  lemma FirstSeparator(a: string, sep: char, b: string)
    requires sep !in a
    ensures IndexOf(a + [sep] + b, [sep]) == Some(|a|)
  {
    var s := a + [sep] + b;
    IndexOfFindsFirst(s, [sep]);
    assert OccursAt(s, [sep], |a|) by { assert s[|a|..|a| + 1] == [sep]; }
    forall j | 0 <= j < |a| ensures !OccursAt(s, [sep], j) {
      assert s[j..j + 1] == [a[j]];
    }
    var at := IndexOf(s, [sep]);
    FirstOccurrenceUnique(s, [sep], at.value, |a|);
  }

  lemma {:induction false} AbsentSeparator(s: string, sep: char)
    requires sep !in s
    ensures IndexOf(s, [sep]).None?
    decreases |s|
  {
    if |s| > 0 {
      assert s[..1] == [s[0]];
      assert sep !in s[1..];
      AbsentSeparator(s[1..], sep);
    }
  }

  /** Splitting a join of separator-free parts gives the parts back. */
  lemma {:induction false} SplitJoin(xs: seq<string>, sep: char)
    requires |xs| > 0
    requires forall k :: 0 <= k < |xs| ==> sep !in xs[k]
    ensures Split(Join(xs, [sep]), sep) == xs
    decreases |xs|
  {
    if |xs| == 1 {
      AbsentSeparator(xs[0], sep);
      assert Join(xs, [sep]) == xs[0];
      assert xs == [xs[0]];
      assert Split(xs[0], sep) == [xs[0]];
    } else {
      var rest := Join(xs[1..], [sep]);
      var s := xs[0] + [sep] + rest;
      assert Join(xs, [sep]) == s;
      FirstSeparator(xs[0], sep, rest);
      assert s[..|xs[0]|] == xs[0];
      assert s[|xs[0]| + 1..] == rest;
      SplitJoin(xs[1..], sep);
      assert [xs[0]] + xs[1..] == xs;
    }
  }

  /** Lower-cases ASCII letters; every other unit is kept. */
  function LowerAscii(s: string): (r: string)
    ensures |r| == |s|
    ensures forall k :: 0 <= k < |s| ==> !('A' <= r[k] <= 'Z')
    ensures forall k :: 0 <= k < |s| && !('A' <= s[k] <= 'Z') ==> r[k] == s[k]
    ensures forall k :: 0 <= k < |s| && 'A' <= s[k] <= 'Z' ==> r[k] as int == s[k] as int + 32
  {
    seq(|s|, k requires 0 <= k < |s| => LowerChar(s[k]))
  }

  function LowerChar(c: char): (r: char)
    ensures !('A' <= r <= 'Z')
    ensures 'A' <= c <= 'Z' ==> r as int == c as int + 32
  {
    if 'A' <= c <= 'Z' then (c as int + 32) as char else c
  }
}
