/** The parts of SQLite's semantics the built statements rely on: ASCII `LOWER`, the `LIKE`
    operator without an ESCAPE clause, and `LIMIT`/`OFFSET` on a result sequence. */
module Sql {

  /** SQLite's built-in `lower()` folds ASCII letters only. */
  function LowerChar(c: char): char {
    if 'A' <= c <= 'Z' then ((c as int) + 32) as char else c
  }

  function Lower(s: string): string {
    seq(|s|, i requires 0 <= i < |s| => LowerChar(s[i]))
  }

  lemma LowerAppend(a: string, b: string)
    ensures Lower(a + b) == Lower(a) + Lower(b)
  {
  }

  /** `s LIKE p`: `%` matches any run of characters, `_` any one character, and every other
      pattern character matches itself up to ASCII case. */
  function Like(s: string, p: string): bool
    decreases |p|, |s|
  {
    if p == "" then s == ""
    else if p[0] == '%' then Like(s, p[1..]) || (s != "" && Like(s[1..], p))
    else s != "" && (p[0] == '_' || LowerChar(s[0]) == LowerChar(p[0])) && Like(s[1..], p[1..])
  }

  /** A value with no LIKE wildcard in it: inside a pattern it matches only itself. */
  predicate Literal(v: string) {
    '%' !in v && '_' !in v
  }

  /** `v` is a prefix of `s`, ignoring ASCII case. */
  ghost predicate PrefixCI(v: string, s: string) {
    |v| <= |s| && forall i :: 0 <= i < |v| ==> LowerChar(s[i]) == LowerChar(v[i])
  }

  /** `v` occurs in `s` at some position, ignoring ASCII case. */
  ghost predicate ContainsCI(s: string, v: string) {
    exists k :: 0 <= k <= |s| - |v| && PrefixCI(v, s[k..])
  }

  /** A lone `%` matches every string. */
  lemma {:induction false} LikeAnything(s: string)
    ensures Like(s, "%")
  {
    assert "%"[1..] == "";
    if s != "" {
      LikeAnything(s[1..]);
    }
  }

  /** `s LIKE 'v%'` holds exactly when `v` is a case-insensitive prefix of `s`. */
  lemma {:induction false} LikePrefix(s: string, v: string)
    requires Literal(v)
    ensures Like(s, v + "%") <==> PrefixCI(v, s)
  {
    if v == "" {
      assert v + "%" == "%";
      LikeAnything(s);
    } else {
      var p := v + "%";
      assert p[0] == v[0] && p[1..] == v[1..] + "%";
      assert Literal(v[1..]);
      if s != "" {
        LikePrefix(s[1..], v[1..]);
        assert PrefixCI(v, s) <==>
          LowerChar(s[0]) == LowerChar(v[0]) && PrefixCI(v[1..], s[1..]) by {
          if PrefixCI(v, s) {
            forall i | 0 <= i < |v[1..]|
              ensures LowerChar(s[1..][i]) == LowerChar(v[1..][i])
            {
              assert LowerChar(s[i + 1]) == LowerChar(v[i + 1]);
            }
          }
          if LowerChar(s[0]) == LowerChar(v[0]) && PrefixCI(v[1..], s[1..]) {
            forall i | 0 <= i < |v|
              ensures LowerChar(s[i]) == LowerChar(v[i])
            {
              if i > 0 {
                assert LowerChar(s[1..][i - 1]) == LowerChar(v[1..][i - 1]);
              }
            }
          }
        }
      }
    }
  }

  /** `s LIKE '%v%'` holds exactly when `v` occurs in `s`, ignoring ASCII case. */
  lemma {:induction false} LikeContains(s: string, v: string)
    requires Literal(v)
    ensures Like(s, "%" + v + "%") <==> ContainsCI(s, v)
  {
    var p := "%" + v + "%";
    assert p[0] == '%' && p[1..] == v + "%";
    LikePrefix(s, v);
    if s == "" {
      assert s[0..] == s;
      assert Like(s, p) == Like(s, v + "%");
      if ContainsCI(s, v) {
        var k :| 0 <= k <= |s| - |v| && PrefixCI(v, s[k..]);
        assert s[k..] == s;
      }
    } else {
      LikeContains(s[1..], v);
      assert Like(s, p) == (Like(s, v + "%") || Like(s[1..], p));
      ContainsStep(s, v);
    }
  }

  /** `v` occurs in a non-empty `s` when it starts it or occurs in its tail. */
  lemma ContainsStep(s: string, v: string)
    requires s != ""
    ensures ContainsCI(s, v) <==> PrefixCI(v, s) || ContainsCI(s[1..], v)
  {
    assert s[0..] == s;
    if ContainsCI(s[1..], v) {
      var k :| 0 <= k <= |s[1..]| - |v| && PrefixCI(v, s[1..][k..]);
      assert s[1..][k..] == s[k + 1..];
    }
    if ContainsCI(s, v) && !PrefixCI(v, s) {
      var k :| 0 <= k <= |s| - |v| && PrefixCI(v, s[k..]);
      assert k != 0;
      assert s[1..][k - 1..] == s[k..];
    }
  }

  lemma LowerLiteral(v: string)
    ensures Literal(Lower(v)) <==> Literal(v)
  {
    if '%' in Lower(v) {
      var i :| 0 <= i < |v| && Lower(v)[i] == '%';
    }
    if '_' in Lower(v) {
      var i :| 0 <= i < |v| && Lower(v)[i] == '_';
    }
    if '%' in v {
      var i :| 0 <= i < |v| && v[i] == '%';
      assert Lower(v)[i] == '%';
    }
    if '_' in v {
      var i :| 0 <= i < |v| && v[i] == '_';
      assert Lower(v)[i] == '_';
    }
  }

  lemma LowerCharIdempotent(c: char)
    ensures LowerChar(LowerChar(c)) == LowerChar(c)
  {
  }

  /** Lower-casing the searched string does not change a case-insensitive prefix test. */
  lemma PrefixLowerRight(v: string, s: string)
    ensures PrefixCI(v, Lower(s)) <==> PrefixCI(v, s)
  {
    forall i | 0 <= i < |v| && i < |s|
      ensures LowerChar(Lower(s)[i]) == LowerChar(s[i])
    {
      LowerCharIdempotent(s[i]);
    }
  }

  lemma PrefixLower(v: string, s: string)
    ensures PrefixCI(Lower(v), Lower(s)) <==> PrefixCI(v, s)
  {
    forall i | 0 <= i < |v|
      ensures LowerChar(Lower(v)[i]) == LowerChar(v[i])
    {
      LowerCharIdempotent(v[i]);
    }
    PrefixLowerRight(Lower(v), s);
    assert PrefixCI(Lower(v), s) <==> PrefixCI(v, s);
  }

  lemma ContainsLower(s: string, v: string)
    ensures ContainsCI(Lower(s), Lower(v)) <==> ContainsCI(s, v)
  {
    if ContainsCI(Lower(s), Lower(v)) {
      var k :| 0 <= k <= |s| - |v| && PrefixCI(Lower(v), Lower(s)[k..]);
      assert Lower(s)[k..] == Lower(s[k..]);
      PrefixLower(v, s[k..]);
    }
    if ContainsCI(s, v) {
      var k :| 0 <= k <= |s| - |v| && PrefixCI(v, s[k..]);
      assert Lower(s)[k..] == Lower(s[k..]);
      PrefixLower(v, s[k..]);
      assert PrefixCI(Lower(v), Lower(s)[k..]);
    }
  }

  /** `LOWER(x) LIKE LOWER('%' || v || '%')` is case-insensitive substring containment,
      provided `v` carries no wildcard of its own. */
  lemma LowerLikeContains(x: string, v: string)
    requires Literal(v)
    ensures Like(Lower(x), Lower("%" + v + "%")) <==> ContainsCI(x, v)
  {
    LowerAppend("%" + v, "%");
    LowerAppend("%", v);
    assert Lower("%" + v + "%") == "%" + Lower(v) + "%";
    LowerLiteral(v);
    LikeContains(Lower(x), Lower(v));
    ContainsLower(x, v);
  }

  /** `LOWER(x) LIKE 'v%'` for a lower-case literal pattern is a case-insensitive prefix test. */
  lemma LowerLikePrefix(x: string, v: string)
    requires Literal(v)
    ensures Like(Lower(x), v + "%") <==> PrefixCI(v, x)
  {
    LikePrefix(Lower(x), v);
    PrefixLowerRight(v, x);
  }

  /** `LOWER(x) LIKE '%v%'` for a literal pattern is a case-insensitive containment test. */
  lemma LowerLikeInfix(x: string, v: string)
    requires Literal(v)
    ensures Like(Lower(x), "%" + v + "%") <==> ContainsCI(x, v)
  {
    LikeContains(Lower(x), v);
    ContainsLowerRight(x, v);
  }

  /** Lower-casing the searched string does not change a case-insensitive containment test. */
  lemma ContainsLowerRight(x: string, v: string)
    ensures ContainsCI(Lower(x), v) <==> ContainsCI(x, v)
  {
    if ContainsCI(Lower(x), v) {
      var k :| 0 <= k <= |x| - |v| && PrefixCI(v, Lower(x)[k..]);
      assert Lower(x)[k..] == Lower(x[k..]);
      PrefixLowerRight(v, x[k..]);
    }
    if ContainsCI(x, v) {
      var k :| 0 <= k <= |x| - |v| && PrefixCI(v, x[k..]);
      assert Lower(x)[k..] == Lower(x[k..]);
      PrefixLowerRight(v, x[k..]);
      assert PrefixCI(v, Lower(x)[k..]);
    }
  }

  /** Unescaped wildcards in a value widen the match: `'%_%'` matches every non-empty string. */
  lemma UnderscoreMatchesAnyChar(s: string)
    requires s != ""
    ensures Like(s, "%" + "_" + "%")
  {
    var p := "%" + "_" + "%";
    assert p[1..] == "_%" && "_%"[1..] == "%";
    LikeAnything(s[1..]);
    assert Like(s, "_%");
  }

  /** `LIMIT limit OFFSET offset` applied to a result: a negative offset counts as zero and a
      negative limit means no limit. */
  function Window<T>(rows: seq<T>, limit: int, offset: int): (r: seq<T>)
    ensures var start := if offset < 0 then 0 else if offset > |rows| then |rows| else offset;
      |r| == (if limit < 0 || limit > |rows| - start then |rows| - start else limit) &&
      r == rows[start..start + |r|]
  {
    var start := if offset < 0 then 0 else if offset > |rows| then |rows| else offset;
    var rest := rows[start..];
    if limit < 0 || limit >= |rest| then rest else rest[..limit]
  }
}
