/**
 * `fixSupabaseConnectionString` of server/database.ts: two escaping passes
 * with a lookahead, a host-name rewrite and a default scheme.
 */
module Database {
  import opened Text

  const Scheme := "postgresql://"
  const ShortScheme := "postgres://"
  const PoolerHost := "aws-0-us-west-1.pooler.supabase.com"

  /**
   * `replace(/\*(?!%)/g, '%2A')`: each `*` that is not directly followed by
   * `%` in the input becomes `%2A`; everything else is copied.
   */
  function EscapeStars(s: string): string
    decreases |s|
  {
    if s == [] then []
    else if s[0] == '*' && !(|s| > 1 && s[1] == '%') then "%2A" + EscapeStars(s[1..])
    else [s[0]] + EscapeStars(s[1..])
  }

  /** `s` has two hexadecimal digits at positions `i` and `i + 1`. */
  predicate HexPairAt(s: string, i: nat) {
    i + 1 < |s| && IsHexDigit(s[i]) && IsHexDigit(s[i + 1])
  }

  /**
   * `replace(/%U(?![0-9A-Fa-f]{2})/g, '%25U')`: scanning left to right, each
   * `%U` not followed by two hexadecimal digits becomes `%25U`.
   */
  function EscapeBarePercentU(s: string): string
    decreases |s|
  {
    if s == [] then []
    else if "%U" <= s && !HexPairAt(s, 2) then "%25U" + EscapeBarePercentU(s[2..])
    else [s[0]] + EscapeBarePercentU(s[1..])
  }

  predicate HasScheme(s: string) {
    Scheme <= s || ShortScheme <= s
  }

  /** The connection string the server connects with; the empty string stays empty. */
  function FixConnectionString(url: string): (r: string)
    ensures r == [] <==> url == []
    ensures r != [] ==> HasScheme(r)
  {
    if url == [] then []
    else
      var escaped := ReplaceAll(EscapeBarePercentU(EscapeStars(url)), PoolerHost, PoolerHost);
      if HasScheme(escaped) then escaped else Scheme + escaped
  }

  /** The host-name rewrite replaces the pooler host by itself, which changes nothing. */
  lemma HostRewriteIsIdentity(s: string)
    ensures ReplaceAll(s, PoolerHost, PoolerHost) == s
  {
    ReplaceAllSelf(s, PoolerHost);
  }

  /** Every `*` in `s` is directly followed by `%`. */
  predicate StarsGuarded(s: string) {
    forall i :: 0 <= i < |s| && s[i] == '*' ==> i + 1 < |s| && s[i + 1] == '%'
  }

  /** Every `%U` in `s` is directly followed by two hexadecimal digits. */
  predicate PercentUGuarded(s: string) {
    forall i :: 0 <= i < |s| - 1 && s[i] == '%' && s[i + 1] == 'U' ==> HexPairAt(s, i + 2)
  }

  /** The first pass leaves no `*` without a `%` after it. */
  lemma {:induction false} EscapeStarsGuards(s: string)
    ensures StarsGuarded(EscapeStars(s))
    ensures s != [] ==> EscapeStars(s) != [] && EscapeStars(s)[0] == (if s[0] == '*' && !(|s| > 1 && s[1] == '%') then '%' else s[0])
    decreases |s|
  {
    if s != [] {
      EscapeStarsGuards(s[1..]);
      var rest := EscapeStars(s[1..]);
      var r := EscapeStars(s);
      if s[0] == '*' && !(|s| > 1 && s[1] == '%') {
        assert r == "%2A" + rest;
        forall i | 0 <= i < |r| && r[i] == '*' ensures i + 1 < |r| && r[i + 1] == '%' {
          assert i >= 3 && r[i] == rest[i - 3];
        }
      } else {
        assert r == [s[0]] + rest;
        forall i | 0 <= i < |r| && r[i] == '*' ensures i + 1 < |r| && r[i + 1] == '%' {
          if i == 0 {
            assert |s| > 1 && s[1] == '%';
            assert rest[0] == '%';
          } else {
            assert r[i] == rest[i - 1];
          }
        }
      }
    }
  }

  /** The first pass changes a string exactly when some `*` in it lacks a `%` after it. */
  lemma {:induction false} EscapeStarsFixedIff(s: string)
    ensures EscapeStars(s) == s <==> StarsGuarded(s)
    decreases |s|
  {
    if s != [] {
      EscapeStarsFixedIff(s[1..]);
      if s[0] == '*' && !(|s| > 1 && s[1] == '%') {
        assert EscapeStars(s)[0] == '%';
        assert !StarsGuarded(s);
      } else {
        assert EscapeStars(s) == [s[0]] + EscapeStars(s[1..]);
        if StarsGuarded(s) {
          assert StarsGuarded(s[1..]) by {
            forall i | 0 <= i < |s[1..]| && s[1..][i] == '*' ensures i + 1 < |s[1..]| && s[1..][i + 1] == '%' {
              assert s[i + 1] == '*';
            }
          }
        }
        if StarsGuarded(s[1..]) {
          forall i | 0 <= i < |s| && s[i] == '*' ensures i + 1 < |s| && s[i + 1] == '%' {
            if i > 0 {
              assert s[1..][i - 1] == '*';
            }
          }
        }
        if EscapeStars(s) == s {
          assert EscapeStars(s[1..]) == s[1..];
        }
      }
    }
  }

  /** Running the first pass twice is the same as running it once. */
  lemma EscapeStarsIdempotent(s: string)
    ensures EscapeStars(EscapeStars(s)) == EscapeStars(s)
  {
    EscapeStarsGuards(s);
    EscapeStarsFixedIff(EscapeStars(s));
  }

  /** The second pass keeps a first character other than `%`. */
  lemma EscapeBarePercentUHead(s: string)
    requires s != [] && s[0] != '%'
    ensures EscapeBarePercentU(s) == [s[0]] + EscapeBarePercentU(s[1..])
  {
  }

  /** The second pass starts its output with `%` exactly when its input starts with `%`. */
  lemma EscapeBarePercentUFirst(s: string)
    requires s != []
    ensures EscapeBarePercentU(s) != [] && (EscapeBarePercentU(s)[0] == '%' <==> s[0] == '%')
  {
  }

  /** The second pass leaves no `%U` without two hexadecimal digits after it. */
  lemma {:induction false} EscapeBarePercentUGuards(s: string)
    ensures PercentUGuarded(EscapeBarePercentU(s))
    decreases |s|
  {
    if s == [] {
    } else if "%U" <= s && !HexPairAt(s, 2) {
      var rest := EscapeBarePercentU(s[2..]);
      EscapeBarePercentUGuards(s[2..]);
      var r := EscapeBarePercentU(s);
      assert r == "%25U" + rest;
      forall i | 0 <= i < |r| - 1 && r[i] == '%' && r[i + 1] == 'U' ensures HexPairAt(r, i + 2) {
        assert i >= 4 && r[i] == rest[i - 4] && r[i + 1] == rest[i - 3];
        assert rest[i - 2] == r[i + 2] && rest[i - 1] == r[i + 3];
      }
    } else {
      var rest := EscapeBarePercentU(s[1..]);
      EscapeBarePercentUGuards(s[1..]);
      var r := EscapeBarePercentU(s);
      assert r == [s[0]] + rest;
      forall i | 0 <= i < |r| - 1 && r[i] == '%' && r[i + 1] == 'U' ensures HexPairAt(r, i + 2) {
        if i == 0 {
          // `s` starts with `%`, and `rest` with `U`, so `s[1]` is `U` and the hex pair was there.
          EscapeBarePercentUFirst(s[1..]);
          assert s[1] == 'U';
          assert "%U" <= s;
          assert HexPairAt(s, 2);
          EscapeBarePercentUHead(s[1..]);
          EscapeBarePercentUHead(s[2..]);
          assert r[2] == s[2] && r[3] == s[3];
        } else {
          assert r[i] == rest[i - 1] && r[i + 1] == rest[i];
          assert rest[i + 1] == r[i + 2] && rest[i + 2] == r[i + 3];
        }
      }
    }
  }

  /** The second pass changes a string exactly when some `%U` in it lacks two hexadecimal digits after it. */
  lemma {:induction false} EscapeBarePercentUFixedIff(s: string)
    ensures EscapeBarePercentU(s) == s <==> PercentUGuarded(s)
    decreases |s|
  {
    if s == [] {
    } else if "%U" <= s && !HexPairAt(s, 2) {
      assert EscapeBarePercentU(s)[1] == '2' && s[1] == 'U';
      assert !PercentUGuarded(s) by {
        assert s[0] == '%' && s[1] == 'U';
      }
    } else {
      EscapeBarePercentUFixedIff(s[1..]);
      assert EscapeBarePercentU(s) == [s[0]] + EscapeBarePercentU(s[1..]);
      var t := s[1..];
      if PercentUGuarded(s) {
        assert PercentUGuarded(t) by {
          forall i | 0 <= i < |t| - 1 && t[i] == '%' && t[i + 1] == 'U' ensures HexPairAt(t, i + 2) {
            assert s[i + 1] == '%' && s[i + 2] == 'U';
            assert HexPairAt(s, i + 3);
            assert t[i + 2] == s[i + 3] && t[i + 3] == s[i + 4];
          }
        }
      }
      if PercentUGuarded(t) {
        forall i | 0 <= i < |s| - 1 && s[i] == '%' && s[i + 1] == 'U' ensures HexPairAt(s, i + 2) {
          if i > 0 {
            assert t[i - 1] == '%' && t[i] == 'U';
            assert HexPairAt(t, i + 1);
            assert s[i + 2] == t[i + 1] && s[i + 3] == t[i + 2];
          } else {
            assert "%U" <= s;
          }
        }
      }
      if EscapeBarePercentU(s) == s {
        assert EscapeBarePercentU(t) == t;
      }
    }
  }

  /** Running the second pass twice is the same as running it once. */
  lemma EscapeBarePercentUIdempotent(s: string)
    ensures EscapeBarePercentU(EscapeBarePercentU(s)) == EscapeBarePercentU(s)
  {
    EscapeBarePercentUGuards(s);
    EscapeBarePercentUFixedIff(EscapeBarePercentU(s));
  }

  /** A `%U` already followed by two hexadecimal digits is copied, digits included, and the rest is escaped as before. */
  lemma GuardedPercentUKept(h1: char, h2: char, y: string)
    requires IsHexDigit(h1) && IsHexDigit(h2)
    ensures EscapeBarePercentU("%U" + [h1, h2] + y) == "%U" + [h1, h2] + EscapeBarePercentU(y)
  {
    var s := "%U" + [h1, h2] + y;
    var s1, s2, s3 := s[1..], s[2..], s[3..];
    assert s1 == "U" + [h1, h2] + y && s2 == [h1, h2] + y && s3 == [h2] + y && s3[1..] == y;
    assert HexPairAt(s, 2);
    assert EscapeBarePercentU(s) == "%" + EscapeBarePercentU(s1);
    assert EscapeBarePercentU(s1) == "U" + EscapeBarePercentU(s2) by { EscapeBarePercentUHead(s1); assert s1[1..] == s2; }
    assert EscapeBarePercentU(s2) == [h1] + EscapeBarePercentU(s3) by { EscapeBarePercentUHead(s2); assert s2[1..] == s3; }
    assert EscapeBarePercentU(s3) == [h2] + EscapeBarePercentU(y) by { EscapeBarePercentUHead(s3); }
  }

  /** The second pass copies every `*` together with the character after it, so the first pass's guarantee survives. */
  lemma {:induction false} EscapeBarePercentUKeepsStarsGuarded(s: string)
    requires StarsGuarded(s)
    ensures StarsGuarded(EscapeBarePercentU(s))
    decreases |s|
  {
    if s == [] {
    } else if "%U" <= s && !HexPairAt(s, 2) {
      var rest := EscapeBarePercentU(s[2..]);
      assert StarsGuarded(s[2..]) by {
        forall i | 0 <= i < |s[2..]| && s[2..][i] == '*' ensures i + 1 < |s[2..]| && s[2..][i + 1] == '%' {
          assert s[i + 2] == '*';
        }
      }
      EscapeBarePercentUKeepsStarsGuarded(s[2..]);
      var r := EscapeBarePercentU(s);
      assert r == "%25U" + rest;
      forall i | 0 <= i < |r| && r[i] == '*' ensures i + 1 < |r| && r[i + 1] == '%' {
        assert i >= 4 && r[i] == rest[i - 4];
      }
    } else {
      var rest := EscapeBarePercentU(s[1..]);
      assert StarsGuarded(s[1..]) by {
        forall i | 0 <= i < |s[1..]| && s[1..][i] == '*' ensures i + 1 < |s[1..]| && s[1..][i + 1] == '%' {
          assert s[i + 1] == '*';
        }
      }
      EscapeBarePercentUKeepsStarsGuarded(s[1..]);
      var r := EscapeBarePercentU(s);
      assert r == [s[0]] + rest;
      forall i | 0 <= i < |r| && r[i] == '*' ensures i + 1 < |r| && r[i + 1] == '%' {
        if i == 0 {
          EscapeBarePercentUFirst(s[1..]);
        } else {
          assert r[i] == rest[i - 1];
        }
      }
    }
  }

  /** Prepending a text without `*` or `%` keeps both guarantees. */
  lemma PrefixKeepsGuards(p: string, s: string)
    requires '*' !in p && '%' !in p
    requires StarsGuarded(s) && PercentUGuarded(s)
    ensures StarsGuarded(p + s) && PercentUGuarded(p + s)
  {
    var ps := p + s;
    forall i | 0 <= i < |ps| && ps[i] == '*' ensures i + 1 < |ps| && ps[i + 1] == '%' {
      if i >= |p| {
        assert ps[i] == s[i - |p|];
      }
    }
    forall i | 0 <= i < |ps| - 1 && ps[i] == '%' && ps[i + 1] == 'U' ensures HexPairAt(ps, i + 2) {
      if i >= |p| {
        assert ps[i] == s[i - |p|] && ps[i + 1] == s[i - |p| + 1];
        assert HexPairAt(s, i - |p| + 2);
        assert ps[i + 2] == s[i - |p| + 2] && ps[i + 3] == s[i - |p| + 3];
      }
    }
  }

  /** In the fixed string every `*` is followed by `%` and every `%U` by two hexadecimal digits. */
  lemma FixedStringIsGuarded(url: string)
    ensures StarsGuarded(FixConnectionString(url)) && PercentUGuarded(FixConnectionString(url))
  {
    if url != [] {
      var stars := EscapeStars(url);
      var both := EscapeBarePercentU(stars);
      EscapeStarsGuards(url);
      EscapeBarePercentUKeepsStarsGuarded(stars);
      EscapeBarePercentUGuards(stars);
      HostRewriteIsIdentity(both);
      if !HasScheme(both) {
        PrefixKeepsGuards(Scheme, both);
      }
    }
  }

  /** The first pass passes a prefix without `*` through unchanged. */
  lemma {:induction false} EscapeStarsPrefix(p: string, s: string)
    requires '*' !in p
    ensures EscapeStars(p + s) == p + EscapeStars(s)
    decreases |p|
  {
    if p != [] {
      assert (p + s)[1..] == p[1..] + s;
      EscapeStarsPrefix(p[1..], s);
      assert EscapeStars(p + s) == [p[0]] + EscapeStars(p[1..] + s);
    } else {
      assert p + s == s;
    }
  }

  /** The second pass passes a prefix without `%` through unchanged. */
  lemma {:induction false} EscapeBarePercentUPrefix(p: string, s: string)
    requires '%' !in p
    ensures EscapeBarePercentU(p + s) == p + EscapeBarePercentU(s)
    decreases |p|
  {
    if p != [] {
      assert (p + s)[1..] == p[1..] + s;
      EscapeBarePercentUPrefix(p[1..], s);
      assert EscapeBarePercentU(p + s) == [p[0]] + EscapeBarePercentU(p[1..] + s);
    } else {
      assert p + s == s;
    }
  }

  /** A string that already names a scheme keeps it and gets no second one. */
  lemma FixKeepsGivenScheme(url: string)
    requires HasScheme(url)
    ensures FixConnectionString(url) == EscapeBarePercentU(EscapeStars(url))
    ensures Scheme <= url ==> Scheme <= FixConnectionString(url)
    ensures ShortScheme <= url ==> ShortScheme <= FixConnectionString(url)
  {
    var p := if Scheme <= url then Scheme else ShortScheme;
    var rest := url[|p|..];
    assert url == p + rest;
    EscapeStarsPrefix(p, rest);
    EscapeBarePercentUPrefix(p, EscapeStars(rest));
    var both := EscapeBarePercentU(EscapeStars(url));
    assert both == p + EscapeBarePercentU(EscapeStars(rest));
    HostRewriteIsIdentity(both);
    if Scheme <= url {
      assert Scheme <= both;
    } else {
      assert ShortScheme <= both;
    }
  }

  /** A string without a scheme gets `postgresql://` in front of its escaped form. */
  lemma FixAddsScheme(url: string)
    requires url != [] && !HasScheme(EscapeBarePercentU(EscapeStars(url)))
    ensures FixConnectionString(url) == Scheme + EscapeBarePercentU(EscapeStars(url))
  {
    HostRewriteIsIdentity(EscapeBarePercentU(EscapeStars(url)));
  }

  /** A string with neither `*` nor `%` is copied unchanged, behind `postgresql://` when it names no scheme. */
  lemma FixPlainString(url: string)
    requires url != [] && '*' !in url && '%' !in url
    ensures FixConnectionString(url) == if HasScheme(url) then url else Scheme + url
  {
    EscapeStarsPrefix(url, []);
    assert url + [] == url;
    EscapeBarePercentUPrefix(url, []);
    HostRewriteIsIdentity(url);
  }

  /** What the first pass writes for a leading `c` when `t` follows it. */
  function StarStep(c: char, t: string): string {
    if c == '*' && !(t != [] && t[0] == '%') then "%2A" else [c]
  }

  /** The first pass on `[c] + t` writes the step for `c` and then escapes `t`. */
  lemma EscapeStarsCons(c: char, t: string)
    ensures EscapeStars([c] + t) == StarStep(c, t) + EscapeStars(t)
  {
    var s := [c] + t;
    assert s[0] == c && s[1..] == t;
    assert |s| > 1 ==> s[1] == t[0];
  }

  /**
   * The first pass works piece by piece: two texts escape separately unless the
   * join puts a `*` directly before a `%`.
   */
  lemma {:induction false} EscapeStarsAppend(x: string, z: string)
    requires x == [] || z == [] || x[|x| - 1] != '*' || z[0] != '%'
    ensures EscapeStars(x + z) == EscapeStars(x) + EscapeStars(z)
    decreases |x|
  {
    if x == [] {
      assert x + z == z;
    } else {
      var t := x[1..];
      assert x == [x[0]] + t && x + z == [x[0]] + (t + z);
      EscapeStarsAppend(t, z);
      EscapeStarsCons(x[0], t);
      EscapeStarsCons(x[0], t + z);
      assert StarStep(x[0], t + z) == StarStep(x[0], t) by {
        if t != [] {
          assert (t + z)[0] == t[0];
        } else {
          assert t + z == z;
        }
      }
    }
  }

  /** A `*` in front of `%`, anywhere in the text, survives the first pass as it is. */
  lemma StarBeforePercentKept(x: string, y: string)
    ensures EscapeStars(x + "*%" + y) == EscapeStars(x) + "*" + EscapeStars("%" + y)
  {
    var z := "*%" + y;
    assert x + "*%" + y == x + z;
    EscapeStarsAppend(x, z);
    assert z[1..] == "%" + y;
  }

  /** A `*` in front of `%` survives: the first pass treats it as already escaped. */
  lemma StarBeforePercentExample()
    ensures FixConnectionString(ShortScheme + "a*%40") == ShortScheme + "a*%40"
  {
    var rest := "a*%40";
    assert EscapeBarePercentU(EscapeStars(rest)) == rest by {
      assert EscapeStars("%40") == "%40";
      assert EscapeStars(rest) == rest;
      assert EscapeBarePercentU("%40") == "%40";
    }
    var url := ShortScheme + rest;
    assert ShortScheme <= url;
    FixKeepsGivenScheme(url);
    EscapeStarsPrefix(ShortScheme, rest);
    EscapeBarePercentUPrefix(ShortScheme, EscapeStars(rest));
  }

  /** A bare `*` and a `%U` without hexadecimal digits after it are both escaped, and the scheme is added. */
  lemma FixExample()
    ensures FixConnectionString("*a%U") == Scheme + "%2Aa%25U"
  {
    var escaped := "%2Aa%25U";
    assert EscapeBarePercentU(EscapeStars("*a%U")) == escaped by {
      assert EscapeStars("%U") == "%U";
      assert EscapeStars("*a%U") == "%2Aa%U";
      assert EscapeBarePercentU("%U") == "%25U";
    }
    assert !HasScheme(escaped) by {
      assert escaped[0] == '%';
    }
    FixAddsScheme("*a%U");
  }
}
