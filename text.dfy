/**
 * The handful of JavaScript string operations the core relies on:
 * `includes`, the first-occurrence `replace(string, string)` and `toLowerCase`.
 */
module Text {
  import opened Wrappers

  /** `p` occurs in `s` starting at position `i`. */
  predicate OccursAt(s: string, p: string, i: nat)
  {
    i + |p| <= |s| && s[i..i + |p|] == p
  }

  /** `s.includes(p)`. */
  predicate Contains(s: string, p: string)
  {
    exists i: nat :: i <= |s| && OccursAt(s, p, i)
  }

  /** The first occurrence of `p` in `s` at or after position `i`. */
  function IndexFrom(s: string, p: string, i: nat): (r: Option<nat>)
    decreases |s| - i
    ensures r.Some? ==> i <= r.value && OccursAt(s, p, r.value)
    ensures r.Some? ==> forall j: nat :: i <= j < r.value ==> !OccursAt(s, p, j)
    ensures r.None? ==> forall j: nat :: i <= j <= |s| ==> !OccursAt(s, p, j)
  {
    if i + |p| > |s| then None
    else if s[i..i + |p|] == p then Some(i)
    else IndexFrom(s, p, i + 1)
  }

  /** `s.indexOf(p)`, with `None` for JavaScript's -1. */
  function IndexOf(s: string, p: string): (r: Option<nat>)
    ensures r.Some? ==> OccursAt(s, p, r.value) && forall j: nat :: j < r.value ==> !OccursAt(s, p, j)
    ensures r.None? <==> !Contains(s, p)
  {
    IndexFrom(s, p, 0)
  }

  /** `s.replace(p, rep)` for a string pattern: only the first occurrence is replaced. */
  function ReplaceFirst(s: string, p: string, rep: string): (r: string)
    ensures !Contains(s, p) ==> r == s
    ensures Contains(s, p) ==>
              exists k: nat ::
                && k <= |s| && OccursAt(s, p, k)
                && (forall j: nat :: j < k ==> !OccursAt(s, p, j))
                && r == s[..k] + rep + s[k + |p|..]
  {
    match IndexOf(s, p)
    case None => s
    case Some(k) => s[..k] + rep + s[k + |p|..]
  }

  /**
   * If the character `p[k]` does not appear where an occurrence of `p`
   * starting before `bound` would put it, then `p` does not occur before `bound`.
   */
  lemma AbsentBefore(s: string, p: string, k: nat, bound: nat)
    requires k < |p| && bound + |p| <= |s| + 1
    requires p[k] !in s[k..bound + k]
    ensures forall i: nat :: i < bound ==> !OccursAt(s, p, i)
  {
    forall i: nat | i < bound ensures !OccursAt(s, p, i) {
      assert s[i..i + |p|][k] == s[k..bound + k][i];
    }
  }

  /** A string lacking one of the characters of `p` does not contain `p`. */
  lemma MissingChar(s: string, p: string, k: nat)
    requires k < |p| && p[k] !in s
    ensures !Contains(s, p)
  {
    forall i: nat | i <= |s| ensures !OccursAt(s, p, i) {
      if i + |p| <= |s| {
        assert s[i..i + |p|][k] == s[i + k];
      }
    }
  }

  /** A character `p` holds twice cannot both fit in `a + [c] + b`, which holds it once. */
  lemma RepeatedChar(s: string, p: string, k1: nat, k2: nat, a: string, b: string)
    requires k1 < k2 < |p| && p[k1] == p[k2]
    requires s == a + [p[k1]] + b && p[k1] !in a && p[k1] !in b
    ensures !Contains(s, p)
  {
    forall i: nat | i <= |s| ensures !OccursAt(s, p, i) {
      if i + |p| <= |s| {
        var w := s[i..i + |p|];
        assert w[k1] == s[i + k1] && w[k2] == s[i + k2];
        if i + k1 < |a| {
          assert s[i + k1] == a[i + k1];
        } else {
          assert s[i + k2] == b[i + k2 - |a| - 1];
        }
      }
    }
  }

  /** `p` occurs in `pre + p + post` right after `pre`. */
  lemma OccursIn(s: string, pre: string, p: string, post: string)
    requires s == pre + p + post
    ensures OccursAt(s, p, |pre|)
  {
    assert s[|pre|..|pre| + |p|] == p;
  }

  /** `p` occurring at `k` with no occurrence before it fixes the answer of `IndexOf`. */
  lemma IndexOfIs(s: string, p: string, k: nat)
    requires OccursAt(s, p, k)
    requires forall j: nat :: j < k ==> !OccursAt(s, p, j)
    ensures IndexOf(s, p) == Some(k)
  {
    var r := IndexOf(s, p);
    assert r.Some? by {
      assert Contains(s, p);
    }
  }

  /**
   * `toLowerCase` of one character. ASCII capitals map to small letters, and
   * KELVIN SIGN (U+212A) maps to 'k', the one character outside ASCII whose
   * lowercase form is 'm' or 'k'; every other character is returned unchanged.
   */
  function LowerChar(c: char): char
  {
    if 'A' <= c <= 'Z' then (c as int + 32) as char
    else if c == '\U{212A}' then 'k'
    else c
  }

  /** Which characters lowercase to 'm' and to 'k'; small letters stay, and no capital remains. */
  lemma LowerCharCases(c: char)
    ensures LowerChar(c) == 'm' <==> c == 'm' || c == 'M'
    ensures LowerChar(c) == 'k' <==> c == 'k' || c == 'K' || c == '\U{212A}'
    ensures 'a' <= c <= 'z' ==> LowerChar(c) == c
    ensures !('A' <= LowerChar(c) <= 'Z')
  {
  }

  /** `s.toLowerCase()`, character by character. */
  function Lower(s: string): string
  {
    if s == [] then [] else [LowerChar(s[0])] + Lower(s[1..])
  }

  /** Lowercasing keeps the length and works on each character alone. */
  lemma {:induction false} LowerPointwise(s: string)
    ensures |Lower(s)| == |s|
    ensures forall i :: 0 <= i < |s| ==> Lower(s)[i] == LowerChar(s[i])
  {
    if s != [] {
      LowerPointwise(s[1..]);
    }
  }

  /** Lowercasing distributes over concatenation. */
  lemma {:induction false} LowerAppend(a: string, b: string)
    ensures Lower(a + b) == Lower(a) + Lower(b)
  {
    if a == [] {
      assert a + b == b;
    } else {
      assert (a + b)[1..] == a[1..] + b;
      LowerAppend(a[1..], b);
    }
  }

  /** A string without capitals (and without KELVIN SIGN) is its own lowercase form. */
  lemma {:induction false} LowerNoCapitals(s: string)
    requires forall c :: c in s ==> !('A' <= c <= 'Z') && c != '\U{212A}'
    ensures Lower(s) == s
  {
    if s != [] {
      assert s[0] in s;
      assert forall c :: c in s[1..] ==> c in s;
      LowerNoCapitals(s[1..]);
    }
  }

  /** A capitalised word lowercases to its small initial and the unchanged rest. */
  lemma LowerCapitalised(first: char, rest: string)
    requires forall c :: c in rest ==> !('A' <= c <= 'Z') && c != '\U{212A}'
    ensures Lower([first] + rest) == [LowerChar(first)] + rest
  {
    LowerAppend([first], rest);
    LowerNoCapitals(rest);
  }

  /** Searching for a one-character string is searching for that character. */
  lemma ContainsChar(s: string, c: char)
    ensures Contains(s, [c]) <==> c in s
  {
    if c in s {
      var i :| 0 <= i < |s| && s[i] == c;
      assert OccursAt(s, [c], i);
    }
    if Contains(s, [c]) {
      var i: nat :| i <= |s| && OccursAt(s, [c], i);
      assert s[i..i + 1][0] == s[i];
    }
  }

  /** A character is in the lowercased string exactly when some character of the original lowercases to it. */
  lemma LowerContains(s: string, c: char)
    ensures c in Lower(s) <==> exists i :: 0 <= i < |s| && LowerChar(s[i]) == c
  {
    var l := Lower(s);
    LowerPointwise(s);
    if c in l {
      var i :| 0 <= i < |l| && l[i] == c;
      assert LowerChar(s[i]) == c;
    }
  }
}
