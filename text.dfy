/**
 * The string operations the server relies on: `toLowerCase`, `includes` and
 * `replace` with a global pattern that matches one literal text.
 */
module Text {

  /** `toLowerCase` on one character; only the ASCII letters are folded. */
  function LowerChar(c: char): char {
    if 'A' <= c <= 'Z' then (c as int + 32) as char else c
  }

  /** `toLowerCase` on a string, character by character. */
  function Lower(s: string): string {
    seq(|s|, i requires 0 <= i < |s| => LowerChar(s[i]))
  }

  lemma LowerAppend(a: string, b: string)
    ensures Lower(a + b) == Lower(a) + Lower(b)
  {
  }

  /** A lower-cased head that holds `q` at `i` makes `q` occur in the lower-cased whole. */
  lemma IncludesLowerHead(head: string, tail: string, q: string, i: nat)
    requires i + |q| <= |head| && q <= Lower(head)[i..]
    ensures Includes(Lower(head + tail), q)
  {
    LowerAppend(head, tail);
    assert q <= Lower(head + tail)[i..];
    IncludesAt(Lower(head + tail), q, i);
  }

  /**
   * No `a` or its capital `ua` directly followed by `b` or its capital `ub`
   * anywhere in `s`: the pair `ab` is absent whatever the case.
   */
  predicate NoPair(s: string, a: char, b: char, ua: char, ub: char) {
    forall i :: 0 <= i < |s| - 1 ==> (s[i] != a && s[i] != ua) || (s[i + 1] != b && s[i + 1] != ub)
  }

  /** Two texts that lack the pair, joined where it does not form, lack it together. */
  lemma NoPairAppend(x: string, y: string, a: char, b: char, ua: char, ub: char)
    requires NoPair(x, a, b, ua, ub) && NoPair(y, a, b, ua, ub)
    requires x == [] || y == [] || (x[|x| - 1] != a && x[|x| - 1] != ua) || (y[0] != b && y[0] != ub)
    ensures NoPair(x + y, a, b, ua, ub)
  {
    var s := x + y;
    forall i | 0 <= i < |s| - 1 ensures (s[i] != a && s[i] != ua) || (s[i + 1] != b && s[i + 1] != ub) {
      if i + 1 < |x| {
        assert s[i] == x[i] && s[i + 1] == x[i + 1];
      } else if i >= |x| {
        assert s[i] == y[i - |x|] && s[i + 1] == y[i - |x| + 1];
      }
    }
  }

  /** The capital of a lower-case ASCII letter. */
  function UpperChar(c: char): (r: char)
    requires 'a' <= c <= 'z'
    ensures LowerChar(r) == c && r != c
  {
    (c as int - 32) as char
  }

  /** Only a letter and its capital lower-case to that letter. */
  lemma LowerCharIs(c: char, l: char)
    requires 'a' <= l <= 'z' && LowerChar(c) == l
    ensures c == l || c == UpperChar(l)
  {
  }

  /**
   * A text that lacks two adjacent letters of `q`, in either case, does not
   * contain `q` once lower-cased.
   */
  lemma NoPairExcludes(s: string, q: string, k: nat)
    requires k + 1 < |q| && 'a' <= q[k] <= 'z' && 'a' <= q[k + 1] <= 'z'
    requires NoPair(s, q[k], q[k + 1], UpperChar(q[k]), UpperChar(q[k + 1]))
    ensures !Includes(Lower(s), q)
  {
    var t := Lower(s);
    IncludesIff(t, q);
    forall i | 0 <= i <= |t| ensures !(q <= t[i..]) {
      if i + |q| <= |t| && q <= t[i..] {
        var j := i + k;
        assert t[j] == q[k] && t[j + 1] == q[k + 1] by {
          assert t[i..][k] == t[j] && t[i..][k + 1] == t[j + 1];
        }
        LowerCharIs(s[j], q[k]);
        LowerCharIs(s[j + 1], q[k + 1]);
      }
    }
  }

  function IsHexDigit(c: char): bool {
    '0' <= c <= '9' || 'A' <= c <= 'F' || 'a' <= c <= 'f'
  }

  /** `s.includes(q)`: `q` occurs in `s`; the empty string occurs everywhere. */
  predicate Includes(s: string, q: string)
    decreases |s|
  {
    q <= s || (s != [] && Includes(s[1..], q))
  }

  /** `Includes` holds exactly when `q` is a prefix of some suffix of `s`. */
  lemma {:induction false} IncludesIff(s: string, q: string)
    ensures Includes(s, q) <==> exists i :: 0 <= i <= |s| && q <= s[i..]
  {
    if exists i :: 0 <= i <= |s| && q <= s[i..] {
      var i :| 0 <= i <= |s| && q <= s[i..];
      IncludesAt(s, q, i);
    }
    if Includes(s, q) {
      if q <= s {
        assert s[0..] == s;
      } else {
        IncludesIff(s[1..], q);
        var i :| 0 <= i <= |s[1..]| && q <= s[1..][i..];
        assert s[1..][i..] == s[i + 1..];
      }
    }
  }

  lemma {:induction false} IncludesAt(s: string, q: string, i: nat)
    requires i <= |s| && q <= s[i..]
    ensures Includes(s, q)
  {
    if i > 0 {
      assert s[1..][i - 1..] == s[i..];
      IncludesAt(s[1..], q, i - 1);
    }
  }

  /**
   * `s.replace(/pat/g, rep)` for a pattern that matches the literal text `pat`:
   * the scan goes left to right and replaces each non-overlapping occurrence.
   */
  function ReplaceAll(s: string, pat: string, rep: string): string
    requires pat != []
    decreases |s|
  {
    if s == [] then []
    else if pat <= s then rep + ReplaceAll(s[|pat|..], pat, rep)
    else [s[0]] + ReplaceAll(s[1..], pat, rep)
  }

  /** The number of occurrences `ReplaceAll` replaces. */
  function Occurrences(s: string, pat: string): nat
    requires pat != []
    decreases |s|
  {
    if s == [] then 0
    else if pat <= s then 1 + Occurrences(s[|pat|..], pat)
    else Occurrences(s[1..], pat)
  }

  /** Each replacement changes the length by the difference of the two texts. */
  lemma {:induction false} ReplaceAllLength(s: string, pat: string, rep: string)
    requires pat != []
    ensures |ReplaceAll(s, pat, rep)| == |s| + (|rep| - |pat|) * Occurrences(s, pat)
    decreases |s|
  {
    if s == [] {
    } else if pat <= s {
      var rest := s[|pat|..];
      ReplaceAllLength(rest, pat, rep);
      assert ReplaceAll(s, pat, rep) == rep + ReplaceAll(rest, pat, rep);
      assert Occurrences(s, pat) == 1 + Occurrences(rest, pat);
      Distribute(|rep| - |pat|, Occurrences(rest, pat));
    } else {
      ReplaceAllLength(s[1..], pat, rep);
    }
  }

  lemma Distribute(d: int, n: int)
    ensures d * (1 + n) == d + d * n
  {
  }

  /** Replacing a text by itself gives back the input. */
  lemma {:induction false} ReplaceAllSelf(s: string, pat: string)
    requires pat != []
    ensures ReplaceAll(s, pat, pat) == s
    decreases |s|
  {
    if s == [] {
    } else if pat <= s {
      var rest := s[|pat|..];
      ReplaceAllSelf(rest, pat);
      assert pat == s[..|pat|];
      calc {
        ReplaceAll(s, pat, pat);
        pat + ReplaceAll(rest, pat, pat);
        s[..|pat|] + rest;
        s;
      }
    } else {
      ReplaceAllSelf(s[1..], pat);
      calc {
        ReplaceAll(s, pat, pat);
        [s[0]] + ReplaceAll(s[1..], pat, pat);
        [s[0]] + s[1..];
        s;
      }
    }
  }

  /** Without an occurrence of the pattern, nothing is replaced. */
  lemma {:induction false} ReplaceAllNoMatch(s: string, pat: string, rep: string)
    requires pat != [] && Occurrences(s, pat) == 0
    ensures ReplaceAll(s, pat, rep) == s
    decreases |s|
  {
    if s != [] {
      ReplaceAllNoMatch(s[1..], pat, rep);
      assert s == [s[0]] + s[1..];
    }
  }

  /** A character found neither in the input nor in the replacement is not in the output. */
  lemma {:induction false} ReplaceAllAvoids(s: string, pat: string, rep: string, c: char)
    requires pat != [] && c !in s && c !in rep
    ensures c !in ReplaceAll(s, pat, rep)
    decreases |s|
  {
    if s == [] {
    } else if pat <= s {
      assert forall k :: 0 <= k < |s[|pat|..]| ==> s[|pat|..][k] == s[|pat| + k];
      ReplaceAllAvoids(s[|pat|..], pat, rep, c);
    } else {
      assert forall k :: 0 <= k < |s[1..]| ==> s[1..][k] == s[1 + k];
      ReplaceAllAvoids(s[1..], pat, rep, c);
    }
  }

  /** A one-character pattern occurs exactly when the character is in the string. */
  lemma {:induction false} OccurrencesOfChar(s: string, c: char)
    ensures Occurrences(s, [c]) == 0 <==> c !in s
    decreases |s|
  {
    if s != [] {
      OccurrencesOfChar(s[1..], c);
      assert s == [s[0]] + s[1..];
    }
  }
}
