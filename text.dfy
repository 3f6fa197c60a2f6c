/** The string tests the core relies on: JavaScript `String.includes`,
    SQL `LIKE` with its `%` and `_` wildcards, and `ILIKE`, which compares
    after lower-casing (ASCII letters only in this model). */
module Text {

  function LowerChar(c: char): char {
    if 'A' <= c <= 'Z' then (c as int + 32) as char else c
  }

  function Lower(s: string): (r: string)
    ensures |r| == |s|
    ensures forall i :: 0 <= i < |s| ==> r[i] == LowerChar(s[i])
  {
    seq(|s|, i requires 0 <= i < |s| => LowerChar(s[i]))
  }

  predicate IsPrefix(q: string, s: string) {
    |q| <= |s| && s[..|q|] == q
  }

  /** `s.includes(q)`: `q` occurs somewhere in `s` (the empty string occurs everywhere). */
  predicate Contains(s: string, q: string)
    decreases |s|
  {
    IsPrefix(q, s) || (s != [] && Contains(s[1..], q))
  }

  /** `s LIKE p`: `%` matches any run of characters, `_` exactly one, and
      every other character itself. */
  predicate Like(s: string, p: string)
    decreases |s| + |p|
  {
    if p == [] then s == []
    else if p[0] == '%' then Like(s, p[1..]) || (s != [] && Like(s[1..], p))
    else s != [] && (p[0] == '_' || p[0] == s[0]) && Like(s[1..], p[1..])
  }

  /** `s ILIKE p`: `LIKE` after lower-casing both sides. */
  predicate ILike(s: string, p: string) {
    Like(Lower(s), Lower(p))
  }

  /** A pattern piece with no wildcard in it. */
  predicate Literal(q: string) {
    '%' !in q && '_' !in q
  }

  /** A lone `%` matches every string. */
  lemma {:induction false} LikeAnything(s: string)
    ensures Like(s, "%")
    decreases |s|
  {
    if s != [] {
      LikeAnything(s[1..]);
    }
  }

  /** A literal head of a pattern must match the head of the string exactly. */
  lemma {:induction false} LikeLiteralHead(s: string, q: string, rest: string)
    requires Literal(q)
    ensures Like(s, q + rest) <==> IsPrefix(q, s) && Like(s[|q|..], rest)
    decreases |q|
  {
    if q != [] {
      assert (q + rest)[0] == q[0];
      assert (q + rest)[1..] == q[1..] + rest;
      if s != [] {
        LikeLiteralHead(s[1..], q[1..], rest);
        if |q| <= |s| {
          assert s[1..][|q| - 1..] == s[|q|..];
        }
        assert IsPrefix(q, s) <==> q[0] == s[0] && IsPrefix(q[1..], s[1..]) by {
          if IsPrefix(q, s) {
            assert s[1..][..|q| - 1] == s[..|q|][1..];
          }
          if q[0] == s[0] && IsPrefix(q[1..], s[1..]) {
            assert s[..|q|] == [s[0]] + s[1..][..|q| - 1];
          }
        }
      }
    } else {
      assert q + rest == rest;
    }
  }

  /** `s LIKE '%q%'` for a literal `q` is exactly `s.includes(q)`. */
  lemma {:induction false} LikeInfix(s: string, q: string)
    requires Literal(q)
    ensures Like(s, "%" + q + "%") <==> Contains(s, q)
    decreases |s|
  {
    var p := "%" + q + "%";
    assert p[0] == '%' && p[1..] == q + "%";
    LikeLiteralHead(s, q, "%");
    if |q| <= |s| {
      LikeAnything(s[|q|..]);
    }
    if s != [] {
      LikeInfix(s[1..], q);
    }
  }

  lemma LowerAppend(a: string, b: string)
    ensures Lower(a + b) == Lower(a) + Lower(b)
  {
  }

  /** `s ILIKE '%q%'` for a literal `q` is `q`'s lower-case form occurring in `s`'s. */
  lemma ILikeInfix(s: string, q: string)
    requires Literal(q)
    ensures ILike(s, "%" + q + "%") <==> Contains(Lower(s), Lower(q))
  {
    LowerAppend("%" + q, "%");
    LowerAppend("%", q);
    assert Lower("%") == "%";
    LikeInfix(Lower(s), Lower(q));
  }

  /** A string shorter than the text sought cannot contain it. */
  lemma {:induction false} ContainsNeedsRoom(s: string, q: string)
    requires |s| < |q|
    ensures !Contains(s, q)
    decreases |s|
  {
    if s != [] {
      ContainsNeedsRoom(s[1..], q);
    }
  }

  /** A string without the first character of the text sought cannot
      contain it. */
  lemma {:induction false} ContainsNeedsFirst(s: string, q: string)
    requires q != [] && q[0] !in s
    ensures !Contains(s, q)
    decreases |s|
  {
    if s != [] {
      assert s[0] != q[0];
      assert forall c :: c in s[1..] ==> c in s;
      ContainsNeedsFirst(s[1..], q);
    }
  }
}
