/**
 * String helpers with the meaning of the JavaScript operations the source uses:
 * `includes`, prefix and suffix tests, and joining lines of a template literal.
 */
module Text {

  /** `sub` occurs in `s` starting at index `i`. */
  predicate OccursAt(s: string, sub: string, i: int)
  {
    0 <= i && i + |sub| <= |s| && s[i..i + |sub|] == sub
  }

  /** `s.includes(sub)`: `sub` occurs in `s` at some position. */
  predicate Contains(s: string, sub: string)
  {
    exists i | 0 <= i <= |s| - |sub| :: OccursAt(s, sub, i)
  }

  predicate StartsWith(s: string, prefix: string)
  {
    |prefix| <= |s| && s[..|prefix|] == prefix
  }

  predicate EndsWith(s: string, suffix: string)
  {
    |suffix| <= |s| && s[|s| - |suffix|..] == suffix
  }

  /** The lines joined with a newline between consecutive ones. */
  function Join(lines: seq<string>): string
  {
    if |lines| == 0 then ""
    else if |lines| == 1 then lines[0]
    else lines[0] + "\n" + Join(lines[1..])
  }

  /** A character of `sub` that `s` lacks rules out every occurrence of `sub` in `s`. */
  lemma MissingChar(s: string, sub: string, c: char)
    requires c in sub && c !in s
    ensures !Contains(s, sub)
  {
    forall i | 0 <= i <= |s| - |sub|
      ensures !OccursAt(s, sub, i)
    {
      var k :| 0 <= k < |sub| && sub[k] == c;
      assert s[i..i + |sub|][k] == s[i + k];
    }
  }

  lemma PrefixContained(s: string, prefix: string)
    requires StartsWith(s, prefix)
    ensures Contains(s, prefix)
  {
    assert OccursAt(s, prefix, 0);
  }

  /** Containment passes through embedding: `a + s + b` contains whatever `s` contains. */
  lemma ContainsInContext(a: string, s: string, b: string, sub: string)
    requires Contains(s, sub)
    ensures Contains(a + s + b, sub)
  {
    var i :| 0 <= i <= |s| - |sub| && OccursAt(s, sub, i);
    var t := a + s + b;
    assert t == a + (s + b);
    assert t[|a| + i..|a| + i + |sub|] == (s + b)[i..i + |sub|];
    assert OccursAt(t, sub, |a| + i);
  }

  lemma {:induction false} JoinContainsLine(lines: seq<string>, k: nat)
    requires k < |lines|
    ensures Contains(Join(lines), lines[k])
  {
    if |lines| == 1 {
      assert Join(lines) == lines[0] + "" + "";
      assert Contains(lines[0], lines[0]) by { assert OccursAt(lines[0], lines[0], 0); }
      ContainsInContext("", lines[0], "", lines[0]);
    } else if k == 0 {
      assert Contains(lines[0], lines[0]) by { assert OccursAt(lines[0], lines[0], 0); }
      ContainsInContext("", lines[0], "\n" + Join(lines[1..]), lines[0]);
      assert "" + lines[0] + ("\n" + Join(lines[1..])) == Join(lines);
    } else {
      JoinContainsLine(lines[1..], k - 1);
      ContainsInContext(lines[0] + "\n", Join(lines[1..]), "", lines[k]);
      assert lines[0] + "\n" + Join(lines[1..]) + "" == Join(lines);
    }
  }

  lemma {:induction false} JoinEndsWithLastLine(lines: seq<string>)
    requires |lines| >= 2
    ensures EndsWith(Join(lines), "\n" + lines[|lines| - 1])
  {
    var last := lines[|lines| - 1];
    if |lines| == 2 {
      assert Join(lines[1..]) == last;
      var j := Join(lines);
      assert j == lines[0] + ("\n" + last);
      assert j[|j| - |"\n" + last|..] == "\n" + last;
    } else {
      JoinEndsWithLastLine(lines[1..]);
      assert lines[1..][|lines[1..]| - 1] == last;
      var t := Join(lines[1..]);
      var j := Join(lines);
      assert j == (lines[0] + "\n") + t;
      assert j[|j| - |"\n" + last|..] == t[|t| - |"\n" + last|..];
    }
  }

  lemma ContainsTransitive(s: string, t: string, u: string)
    requires Contains(s, t) && Contains(t, u)
    ensures Contains(s, u)
  {
    var i :| 0 <= i <= |s| - |t| && OccursAt(s, t, i);
    ContainsInContext(s[..i], t, s[i + |t|..], u);
    assert s == s[..i] + t + s[i + |t|..];
  }

  /** Two strings that differ at position `j` of the prefix are not prefix-related. */
  lemma NotStartsWithAt(s: string, prefix: string, j: nat)
    requires j < |prefix| && j < |s| && s[j] != prefix[j]
    ensures !StartsWith(s, prefix)
  {
  }

  /** A prefix of a prefix is a prefix. */
  lemma StartsWithTransitive(s: string, t: string, u: string)
    requires StartsWith(s, t) && StartsWith(t, u)
    ensures StartsWith(s, u)
  {
    assert s[..|u|] == s[..|t|][..|u|];
  }

  /** A string occurs in any concatenation that surrounds it. */
  lemma ContainsPart(a: string, s: string, b: string)
    ensures Contains(a + s + b, s)
  {
    assert OccursAt(s, s, 0);
    ContainsInContext(a, s, b, s);
  }

  /** Appending keeps a prefix. */
  lemma StartsWithAppend(s: string, prefix: string, t: string)
    requires StartsWith(s, prefix)
    ensures StartsWith(s + t, prefix)
  {
    assert (s + t)[..|prefix|] == s[..|prefix|];
  }
}
