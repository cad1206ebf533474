/**
 * `encodeConnectionString` of server/init-db.ts: every `*` becomes `%2A`,
 * then every `%U` becomes `%25U`, with no lookahead in either pass.
 */
module InitDb {
  import opened Text

  /** The first pass: `replace(/\*\/g, '%2A')`. */
  function EncodeStars(s: string): string {
    ReplaceAll(s, "*", "%2A")
  }

  /** The second pass: `replace(/%U/g, '%25U')`. */
  function EncodePercentU(s: string): string {
    ReplaceAll(s, "%U", "%25U")
  }

  /** `encodeConnectionString`: both passes in turn; the result holds no `*` and no `%U`. */
  function Encode(url: string): (r: string)
    ensures '*' !in r && NoPercentU(r)
  {
    ReplaceAllRemovesChar(url, '*', "%2A");
    ReplaceAllAvoids(EncodeStars(url), "%U", "%25U", '*');
    EncodePercentUClears(EncodeStars(url));
    EncodePercentU(EncodeStars(url))
  }

  /** No `%` directly followed by `U` anywhere in `s`. */
  predicate NoPercentU(s: string) {
    forall i :: 0 <= i < |s| - 1 ==> !(s[i] == '%' && s[i + 1] == 'U')
  }

  /** The empty string is encoded as itself. */
  lemma EncodeEmpty()
    ensures Encode("") == ""
  {
  }

  /** Replacing a one-character pattern by a text without that character removes it. */
  lemma {:induction false} ReplaceAllRemovesChar(s: string, c: char, rep: string)
    requires c !in rep
    ensures c !in ReplaceAll(s, [c], rep)
    decreases |s|
  {
    if s == [] {
    } else if [c] <= s {
      var rest := s[1..];
      assert s[|[c]|..] == rest;
      ReplaceAllRemovesChar(rest, c, rep);
      assert ReplaceAll(s, [c], rep) == rep + ReplaceAll(rest, [c], rep);
    } else {
      ReplaceAllRemovesChar(s[1..], c, rep);
      assert ReplaceAll(s, [c], rep) == [s[0]] + ReplaceAll(s[1..], [c], rep);
    }
  }

  /** The second pass starts its output with `%` when its input starts with `%`, and otherwise with the same character. */
  lemma EncodePercentUFirst(s: string)
    requires s != []
    ensures EncodePercentU(s) != [] && EncodePercentU(s)[0] == s[0]
  {
  }

  /** The second pass leaves no `%U` behind. */
  lemma {:induction false} EncodePercentUClears(s: string)
    ensures NoPercentU(EncodePercentU(s))
    decreases |s|
  {
    if s == [] {
    } else if "%U" <= s {
      var rest := EncodePercentU(s[2..]);
      EncodePercentUClears(s[2..]);
      var r := EncodePercentU(s);
      assert r == "%25U" + rest;
      forall i | 0 <= i < |r| - 1 ensures !(r[i] == '%' && r[i + 1] == 'U') {
        if i >= 4 {
          assert r[i] == rest[i - 4] && r[i + 1] == rest[i - 3];
        }
      }
    } else {
      var rest := EncodePercentU(s[1..]);
      EncodePercentUClears(s[1..]);
      var r := EncodePercentU(s);
      assert r == [s[0]] + rest;
      forall i | 0 <= i < |r| - 1 ensures !(r[i] == '%' && r[i + 1] == 'U') {
        if i == 0 {
          EncodePercentUFirst(s[1..]);
          assert r[1] == s[1];
        } else {
          assert r[i] == rest[i - 1] && r[i + 1] == rest[i];
        }
      }
    }
  }

  /** A string with no `%U` pair has no occurrence for the second pass to replace. */
  lemma {:induction false} NoPercentUNoOccurrences(s: string)
    requires NoPercentU(s)
    ensures Occurrences(s, "%U") == 0
    decreases |s|
  {
    if s != [] {
      assert !("%U" <= s) by {
        if |s| >= 2 {
          assert !(s[0] == '%' && s[1] == 'U');
        }
      }
      assert NoPercentU(s[1..]) by {
        forall i | 0 <= i < |s[1..]| - 1 ensures !(s[1..][i] == '%' && s[1..][i + 1] == 'U') {
          assert s[1..][i] == s[i + 1] && s[1..][i + 1] == s[i + 2];
        }
      }
      NoPercentUNoOccurrences(s[1..]);
    }
  }

  /** A first character that cannot start `%U` is skipped when counting. */
  lemma OccurrencesSkip(c: char, x: string)
    requires c != '%' || x == [] || x[0] != 'U'
    ensures Occurrences([c] + x, "%U") == Occurrences(x, "%U")
  {
    var s := [c] + x;
    assert s[1..] == x;
    assert !("%U" <= s) by {
      if |s| >= 2 {
        assert s[0] == c && s[1] == x[0];
      }
    }
  }

  /** The `%2A` written for a `*` holds no `%U` and cannot start one. */
  lemma OccurrencesAfterEscape(rest: string)
    ensures Occurrences("%2A" + rest, "%U") == Occurrences(rest, "%U")
  {
    var a := ['A'] + rest;
    OccurrencesSkip('A', rest);
    var b := ['2'] + a;
    OccurrencesSkip('2', a);
    OccurrencesSkip('%', b);
    assert "%2A" + rest == ['%'] + b;
  }

  /** The first pass turns a leading `*` into `%2A`, and a leading `*` starts no `%U`. */
  lemma EncodeStarsStar(s: string)
    requires s != [] && s[0] == '*'
    ensures EncodeStars(s) == "%2A" + EncodeStars(s[1..])
    ensures Occurrences(s, "%U") == Occurrences(s[1..], "%U")
  {
  }

  /** The first pass copies a leading `%U` and counts it once. */
  lemma EncodeStarsPercentU(s: string)
    requires "%U" <= s
    ensures EncodeStars(s) == "%U" + EncodeStars(s[2..])
    ensures Occurrences(s, "%U") == 1 + Occurrences(s[2..], "%U")
    ensures Occurrences("%U" + EncodeStars(s[2..]), "%U") == 1 + Occurrences(EncodeStars(s[2..]), "%U")
  {
    assert s[0] == '%';
    assert !("*" <= s) by { assert "*"[0] != s[0]; }
    assert [s[0]] == "%";
    assert EncodeStars(s) == "%" + EncodeStars(s[1..]);
    assert s[1..][1..] == s[2..];
    assert ("%U" + EncodeStars(s[2..]))[2..] == EncodeStars(s[2..]);
  }

  /** Past its first character the first pass's output starts with what the input's rest maps to. */
  lemma EncodeStarsHead(s: string)
    requires |s| > 1 && s[0] == '%' && s[1] != 'U'
    ensures EncodeStars(s[1..]) != [] && EncodeStars(s[1..])[0] != 'U'
  {
    if s[1] == '*' {
      EncodeStarsStar(s[1..]);
    }
  }

  /** The first pass copies any other leading character. */
  lemma EncodeStarsOther(s: string)
    requires s != [] && s[0] != '*' && !("%U" <= s)
    ensures EncodeStars(s) == [s[0]] + EncodeStars(s[1..])
    ensures Occurrences(s, "%U") == Occurrences(s[1..], "%U")
    ensures Occurrences(EncodeStars(s), "%U") == Occurrences(EncodeStars(s[1..]), "%U")
  {
    if |s| > 1 && s[0] == '%' {
      EncodeStarsHead(s);
    }
    OccurrencesSkip(s[0], EncodeStars(s[1..]));
  }

  /** The first pass neither creates nor destroys a `%U`: `%2A` cannot take part in one. */
  lemma {:induction false} EncodeStarsKeepsPercentU(s: string)
    ensures Occurrences(EncodeStars(s), "%U") == Occurrences(s, "%U")
    decreases |s|
  {
    if s == [] {
    } else if s[0] == '*' {
      EncodeStarsKeepsPercentU(s[1..]);
      EncodeStarsStar(s);
      OccurrencesAfterEscape(EncodeStars(s[1..]));
    } else if "%U" <= s {
      EncodeStarsKeepsPercentU(s[2..]);
      EncodeStarsPercentU(s);
    } else {
      EncodeStarsKeepsPercentU(s[1..]);
      EncodeStarsOther(s);
    }
  }

  /** Each `*` and each `%U` of the input adds two characters, and nothing else changes the length. */
  lemma EncodeLength(url: string)
    ensures |Encode(url)| == |url| + 2 * Occurrences(url, "*") + 2 * Occurrences(url, "%U")
  {
    ReplaceAllLength(url, "*", "%2A");
    ReplaceAllLength(EncodeStars(url), "%U", "%25U");
    EncodeStarsKeepsPercentU(url);
  }

  /** A string with neither a `*` nor a `%U` is returned unchanged. */
  lemma EncodeUnchanged(url: string)
    requires '*' !in url && Occurrences(url, "%U") == 0
    ensures Encode(url) == url
  {
    OccurrencesOfChar(url, '*');
    ReplaceAllNoMatch(url, "*", "%2A");
    ReplaceAllNoMatch(url, "%U", "%25U");
  }

  /** Encoding an encoded string changes nothing more. */
  lemma EncodeIdempotent(url: string)
    ensures Encode(Encode(url)) == Encode(url)
  {
    NoPercentUNoOccurrences(Encode(url));
    EncodeUnchanged(Encode(url));
  }
}
