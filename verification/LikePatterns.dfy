/** SQL LIKE as PostgreSQL defines it, for the patterns that access rules use. */
module LikePatterns {

  // '%' matches any text, '_' any one character, '\' takes the next character literally.
  // (A pattern that ends in '\' is an error in PostgreSQL; it matches nothing here.)
  predicate Like(s: string, p: string)
    decreases |s| + |p|
  {
    if p == "" then s == ""
    else if p[0] == '%' then Like(s, p[1..]) || (s != "" && Like(s[1..], p))
    else if p[0] == '\\' then |p| > 1 && s != "" && s[0] == p[1] && Like(s[1..], p[2..])
    else s != "" && (p[0] == '_' || p[0] == s[0]) && Like(s[1..], p[1..])
  }

  // No '%' and no escape.
  predicate Plain(p: string) {
    forall i :: 0 <= i < |p| ==> p[i] != '%' && p[i] != '\\'
  }

  // s begins with p, where '_' in p stands for any character.
  predicate WildPrefix(s: string, p: string) {
    |p| <= |s| && forall i :: 0 <= i < |p| ==> p[i] == '_' || p[i] == s[i]
  }

  lemma {:induction false} LikePercent(s: string)
    ensures Like(s, "%")
  {
    var p := "%";
    assert p[1..] == "";
    if s != "" {
      LikePercent(s[1..]);
    }
  }

  /** s LIKE (p || '%') is a prefix test with wildcards. */
  lemma {:induction false} LikeIsWildPrefix(s: string, p: string)
    requires Plain(p)
    ensures Like(s, p + "%") <==> WildPrefix(s, p)
    decreases |p|
  {
    if p == "" {
      assert p + "%" == "%";
      LikePercent(s);
    } else {
      var q := p + "%";
      assert q[0] == p[0] && q[1..] == p[1..] + "%";
      if s != "" {
        LikeIsWildPrefix(s[1..], p[1..]);
        assert WildPrefix(s, p) <==> (p[0] == '_' || p[0] == s[0]) && WildPrefix(s[1..], p[1..]) by {
          if WildPrefix(s, p) {
            forall i | 0 <= i < |p| - 1 ensures p[1..][i] == '_' || p[1..][i] == s[1..][i] {
              assert p[i + 1] == '_' || p[i + 1] == s[i + 1];
            }
          }
          if (p[0] == '_' || p[0] == s[0]) && WildPrefix(s[1..], p[1..]) {
            forall i | 0 <= i < |p| ensures p[i] == '_' || p[i] == s[i] {
              if i > 0 {
                assert p[1..][i - 1] == '_' || p[1..][i - 1] == s[1..][i - 1];
              }
            }
          }
        }
      }
    }
  }

  lemma WildPrefixIsTransitive(a: string, b: string, c: string)
    requires WildPrefix(a, b) && WildPrefix(b, c)
    ensures WildPrefix(a, c)
  {
    forall i | 0 <= i < |c| ensures c[i] == '_' || c[i] == a[i] {
      assert c[i] == '_' || c[i] == b[i];
      assert b[i] == '_' || b[i] == a[i];
    }
  }

  // RTRIM(s, c).
  function RTrim(s: string, c: char): (r: string)
    ensures r <= s
    ensures r == "" || r[|r| - 1] != c
    ensures forall i :: |r| <= i < |s| ==> s[i] == c
  {
    if s == "" || s[|s| - 1] != c then s else RTrim(s[..|s| - 1], c)
  }
}
