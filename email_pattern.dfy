/** The email shape both mongoose schemas (src/models/User.js and
    src/models/Subscriber.js) validate against,
    `^\w+([.-]?\w+)*@\w+([.-]?\w+)*(\.\w{2,3})+$` without flags, where `\w`
    is `[A-Za-z0-9_]`. `Matches` decides it by the shape of the string; the
    ghost predicates below follow the regular expression term by term, and
    `MatchesIsRegex` proves the two accept the same strings. */
module EmailPattern {
  import JsString

  /** `\w` */
  predicate IsWord(c: char)
  {
    ('a' <= c <= 'z') || ('A' <= c <= 'Z') || ('0' <= c <= '9') || c == '_'
  }

  /** `[.-]` */
  predicate IsSep(c: char)
  {
    c == '.' || c == '-'
  }

  /** Word characters and separators, never two separators in a row, and a
      word character last when not empty. */
  predicate Chain(s: string)
  {
    && (forall i :: 0 <= i < |s| ==> IsWord(s[i]) || IsSep(s[i]))
    && (forall i :: 0 <= i < |s| - 1 ==> IsWord(s[i]) || IsWord(s[i + 1]))
    && (|s| > 0 ==> IsWord(s[|s| - 1]))
  }

  /** The strings `\w+([.-]?\w+)*` matches: runs of word characters joined by
      single dots or dashes. */
  predicate Dotted(s: string)
  {
    |s| > 0 && IsWord(s[0]) && Chain(s)
  }

  /** `s` ends with a dot followed by exactly `n` word characters. */
  predicate EndsWithLabel(s: string, n: nat)
  {
    |s| >= n + 1 && s[|s| - n - 1] == '.' && forall i :: |s| - n <= i < |s| ==> IsWord(s[i])
  }

  /** The strings `\w+([.-]?\w+)*(\.\w{2,3})+` matches: dotted, and ending
      in a dot and a final label of two or three word characters. */
  predicate DomainShape(d: string)
  {
    Dotted(d) && (EndsWithLabel(d, 2) || EndsWithLabel(d, 3))
  }

  /** The first index of `c` in `s`, or -1. */
  function IndexOf(s: string, c: char): (k: int)
    ensures -1 <= k < |s|
    ensures k >= 0 ==> s[k] == c
    ensures forall i :: 0 <= i < |s| && (k < 0 || i < k) ==> s[i] != c
  {
    if s == [] then -1
    else if s[0] == c then 0
    else
      var k := IndexOf(s[1..], c);
      if k < 0 then -1 else k + 1
  }

  /** The email predicate: one `@`, a dotted local part before it and a
      domain after it. */
  predicate Matches(s: string)
  {
    var k := IndexOf(s, '@');
    k >= 0 && Dotted(s[..k]) && DomainShape(s[k + 1..])
  }

  // ---------------------------------------------------------------------------
  // The regular expression, term by term

  /** `\w+` */
  ghost predicate Words(s: string)
  {
    |s| > 0 && forall i :: 0 <= i < |s| ==> IsWord(s[i])
  }

  /** One `[.-]?\w+` */
  ghost predicate Group(g: string)
  {
    Words(g) || (|g| > 1 && IsSep(g[0]) && Words(g[1..]))
  }

  /** `([.-]?\w+)*` */
  ghost predicate Groups(s: string)
    decreases |s|
  {
    s == [] || exists k :: 0 < k <= |s| && Group(s[..k]) && Groups(s[k..])
  }

  /** `\w+([.-]?\w+)*` */
  ghost predicate LocalRe(s: string)
  {
    exists k :: 0 < k <= |s| && Words(s[..k]) && Groups(s[k..])
  }

  /** `(\.\w{2,3})+` */
  ghost predicate Labels(s: string)
    decreases |s|
  {
    exists k :: 3 <= k <= 4 && k <= |s| && s[0] == '.' && Words(s[1..k]) && (k == |s| || Labels(s[k..]))
  }

  /** `\w+([.-]?\w+)*(\.\w{2,3})+` */
  ghost predicate DomainRe(s: string)
  {
    exists k :: 0 <= k <= |s| && LocalRe(s[..k]) && Labels(s[k..])
  }

  /** The whole anchored expression. */
  ghost predicate EmailRe(s: string)
  {
    exists k :: 0 <= k < |s| && s[k] == '@' && LocalRe(s[..k]) && DomainRe(s[k + 1..])
  }

  // ---------------------------------------------------------------------------
  // Equivalence

  lemma ChainConcat(a: string, b: string)
    requires Chain(a) && Chain(b) && |a| > 0
    ensures Chain(a + b)
  {
    var s := a + b;
    forall i | 0 <= i < |s| - 1
      ensures IsWord(s[i]) || IsWord(s[i + 1])
    {
      if i < |a| - 1 {
        assert s[i] == a[i] && s[i + 1] == a[i + 1];
      } else if i == |a| - 1 {
        assert s[i] == a[|a| - 1];
      } else {
        assert s[i] == b[i - |a|] && s[i + 1] == b[i - |a| + 1];
      }
    }
    if |b| > 0 {
      assert s[|s| - 1] == b[|b| - 1];
    }
  }

  lemma {:induction false} GroupsChain(t: string)
    requires Groups(t)
    ensures Chain(t)
    decreases |t|
  {
    if t != [] {
      var k :| 0 < k <= |t| && Group(t[..k]) && Groups(t[k..]);
      GroupsChain(t[k..]);
      var g := t[..k];
      assert Chain(g) by {
        if !Words(g) {
          forall i | 1 <= i < |g|
            ensures IsWord(g[i])
          {
            assert g[i] == g[1..][i - 1];
          }
        }
      }
      ChainConcat(g, t[k..]);
      assert t == g + t[k..];
    }
  }

  lemma {:induction false} ChainGroups(t: string)
    requires Chain(t)
    ensures Groups(t)
    decreases |t|
  {
    if t != [] {
      var k := if IsWord(t[0]) then 1 else 2;
      if k == 2 {
        assert |t| > 1 && IsWord(t[1]);
        assert t[..k][1..] == [t[1]];
      }
      assert Group(t[..k]);
      var r := t[k..];
      assert Chain(r) by {
        forall i | 0 <= i < |r| - 1
          ensures IsWord(r[i]) || IsWord(r[i + 1])
        {
          assert r[i] == t[i + k] && r[i + 1] == t[i + k + 1];
        }
      }
      ChainGroups(r);
    }
  }

  lemma LocalReIsDotted(s: string)
    ensures LocalRe(s) <==> Dotted(s)
  {
    if LocalRe(s) {
      var k :| 0 < k <= |s| && Words(s[..k]) && Groups(s[k..]);
      GroupsChain(s[k..]);
      ChainConcat(s[..k], s[k..]);
      assert s == s[..k] + s[k..];
      assert s[0] == s[..k][0];
    }
    if Dotted(s) {
      var r := s[1..];
      assert Chain(r) by {
        forall i | 0 <= i < |r| - 1
          ensures IsWord(r[i]) || IsWord(r[i + 1])
        {
          assert r[i] == s[i + 1] && r[i + 1] == s[i + 2];
        }
      }
      ChainGroups(r);
      assert Words(s[..1]);
      assert s[1..] == r;
    }
  }

  /** A suffix that ends in a label keeps that ending under any prefix. */
  lemma EndsWithLabelPrefix(a: string, t: string, n: nat)
    requires EndsWithLabel(t, n)
    ensures EndsWithLabel(a + t, n)
  {
    var s := a + t;
    assert s[|s| - n - 1] == t[|t| - n - 1];
    forall i | |s| - n <= i < |s|
      ensures IsWord(s[i])
    {
      assert s[i] == t[i - |a|];
    }
  }

  lemma {:induction false} LabelsShape(t: string)
    requires Labels(t)
    ensures |t| > 0 && t[0] == '.' && Chain(t)
    ensures EndsWithLabel(t, 2) || EndsWithLabel(t, 3)
    decreases |t|
  {
    var k :| 3 <= k <= 4 && k <= |t| && t[0] == '.' && Words(t[1..k]) && (k == |t| || Labels(t[k..]));
    var g := t[..k];
    forall i | 1 <= i < k
      ensures IsWord(g[i])
    {
      assert g[i] == t[1..k][i - 1];
    }
    assert Chain(g);
    if k == |t| {
      assert g == t;
      assert EndsWithLabel(t, k - 1);
    } else {
      var r := t[k..];
      LabelsShape(r);
      ChainConcat(g, r);
      assert t == g + r;
      if EndsWithLabel(r, 2) {
        EndsWithLabelPrefix(g, r, 2);
      } else {
        EndsWithLabelPrefix(g, r, 3);
      }
    }
  }

  lemma DomainReShape(d: string)
    requires DomainRe(d)
    ensures DomainShape(d)
  {
    var k :| 0 <= k <= |d| && LocalRe(d[..k]) && Labels(d[k..]);
    var x, t := d[..k], d[k..];
    LocalReIsDotted(x);
    LabelsShape(t);
    ChainConcat(x, t);
    assert d == x + t;
    assert d[0] == x[0];
    if EndsWithLabel(t, 2) {
      EndsWithLabelPrefix(x, t, 2);
    } else {
      EndsWithLabelPrefix(x, t, 3);
    }
  }

  lemma DomainShapeRe(d: string)
    requires DomainShape(d)
    ensures DomainRe(d)
  {
    var n := if EndsWithLabel(d, 2) then 2 else 3;
    var k := |d| - n - 1;
    var x, t := d[..k], d[k..];
    assert k > 0 && IsWord(d[k - 1]);
    assert Chain(x) by {
      forall i | 0 <= i < |x| - 1
        ensures IsWord(x[i]) || IsWord(x[i + 1])
      {
        assert x[i] == d[i] && x[i + 1] == d[i + 1];
      }
    }
    assert x[0] == d[0];
    LocalReIsDotted(x);
    var tld := t[1..n + 1];
    forall i | 0 <= i < n
      ensures IsWord(tld[i])
    {
      assert tld[i] == d[k + 1 + i];
    }
    assert Labels(t);
  }

  lemma DomainReIsShape(d: string)
    ensures DomainRe(d) <==> DomainShape(d)
  {
    if DomainRe(d) {
      DomainReShape(d);
    }
    if DomainShape(d) {
      DomainShapeRe(d);
    }
  }

  /** The shape predicate accepts exactly the strings the regular expression
      matches. */
  lemma MatchesIsRegex(s: string)
    ensures Matches(s) <==> EmailRe(s)
  {
    var k := IndexOf(s, '@');
    if Matches(s) {
      LocalReIsDotted(s[..k]);
      DomainReIsShape(s[k + 1..]);
    }
    if EmailRe(s) {
      var j :| 0 <= j < |s| && s[j] == '@' && LocalRe(s[..j]) && DomainRe(s[j + 1..]);
      LocalReIsDotted(s[..j]);
      DomainReIsShape(s[j + 1..]);
      assert forall i :: 0 <= i < j ==> s[i] == s[..j][i];
      assert k == j;
    }
  }

  // ---------------------------------------------------------------------------
  // Lower-casing

  /** Two strings whose characters fall in the same classes position by
      position. */
  ghost predicate SameClasses(a: string, b: string)
  {
    && |a| == |b|
    && forall i :: 0 <= i < |a| ==>
         (IsWord(a[i]) <==> IsWord(b[i])) && (IsSep(a[i]) <==> IsSep(b[i]))
         && (a[i] == '.' <==> b[i] == '.') && (a[i] == '@' <==> b[i] == '@')
  }

  lemma SameClassesSlice(a: string, b: string, i: nat, j: nat)
    requires SameClasses(a, b) && i <= j <= |a|
    ensures SameClasses(a[i..j], b[i..j])
  {
    assert forall k :: 0 <= k < j - i ==> a[i..j][k] == a[i + k] && b[i..j][k] == b[i + k];
  }

  lemma SameClassesDotted(a: string, b: string)
    requires SameClasses(a, b)
    ensures Dotted(a) <==> Dotted(b)
    ensures DomainShape(a) <==> DomainShape(b)
  {
  }

  lemma {:induction false} SameClassesIndexOf(a: string, b: string)
    requires SameClasses(a, b)
    ensures IndexOf(a, '@') == IndexOf(b, '@')
    decreases |a|
  {
    if a != [] && a[0] != '@' {
      SameClassesSlice(a, b, 1, |a|);
      SameClassesIndexOf(a[1..], b[1..]);
    }
  }

  lemma SameClassesMatches(a: string, b: string)
    requires SameClasses(a, b)
    ensures Matches(a) <==> Matches(b)
  {
    SameClassesIndexOf(a, b);
    var k := IndexOf(a, '@');
    if k >= 0 {
      SameClassesSlice(a, b, 0, k);
      SameClassesSlice(a, b, k + 1, |a|);
      SameClassesDotted(a[..k], b[..k]);
      SameClassesDotted(a[k + 1..], b[k + 1..]);
    }
  }

  /** The schemas lower-case the email before validating it; lower-casing
      (ASCII lower-casing, as `ToLower` models it) never changes whether the
      pattern matches, because `\w` holds both cases. */
  lemma LowercaseKeepsMatch(s: string)
    ensures Matches(JsString.ToLower(s)) <==> Matches(s)
  {
    SameClassesMatches(JsString.ToLower(s), s);
  }

  /** Any dotted local part and well-formed domain joined by one `@` match. */
  lemma MatchesJoin(local: string, domain: string)
    requires Dotted(local) && DomainShape(domain)
    ensures Matches(local + "@" + domain)
  {
    var s := local + "@" + domain;
    assert s[|local|] == '@';
    assert forall i :: 0 <= i < |local| ==> s[i] == local[i];
    assert s[..|local|] == local && s[|local| + 1..] == domain;
  }

  lemma ExampleParts()
    ensures Dotted("ada") && DomainShape("example.com")
  {
    assert DomainShape("example.com");
  }

  /** A plain address matches. */
  lemma ExampleAccepted()
    ensures Matches("ada@example.com")
  {
    ExampleParts();
    MatchesJoin("ada", "example.com");
    assert "ada" + "@" + "example.com" == "ada@example.com";
  }

  /** A domain without a final label of two or three characters does not. */
  lemma ExamplesRejected()
    ensures !Matches("ada@example")
    ensures !Matches("ada@example.info")
  {
  }
}
