/** Paths as the database stores them: names joined by slashes, the root as a dot. The
    prefix rewrites that SQL does on the text are the ones the model does on names. */
module PathText {
  import opened Paths

  predicate ValidName(n: Name) {
    n != "" && n != "." && '/' !in n
  }

  predicate ValidPath(p: Path) {
    forall i :: 0 <= i < |p| ==> ValidName(p[i])
  }

  /** The names of a non-empty path, joined. */
  function Joined(p: Path): string
    requires p != []
  {
    if |p| == 1 then p[0] else p[0] + "/" + Joined(p[1..])
  }

  function Rendered(p: Path): string {
    if p == [] then "." else Joined(p)
  }

  // ------------------------------------------------------------------ the first name can be told

  lemma AtSlash(a: string, x: string)
    requires '/' !in a
    ensures var s := a + "/" + x; s[|a|] == '/' && forall i :: 0 <= i < |a| ==> s[i] != '/'
  {
    forall i | 0 <= i < |a| ensures (a + "/" + x)[i] != '/' { assert (a + "/" + x)[i] == a[i]; }
  }

  lemma HeadEqual(a: string, x: string, b: string, y: string)
    requires '/' !in a && '/' !in b && a + "/" + x == b + "/" + y
    ensures a == b && x == y
  {
    var s, t := a + "/" + x, b + "/" + y;
    AtSlash(a, x);
    AtSlash(b, y);
    assert |a| == |b|;
    assert a == s[..|a|] && b == t[..|b|];
    assert x == s[|a| + 1..] && y == t[|b| + 1..];
  }

  lemma OneName(p: Path)
    requires p != [] && ValidPath(p)
    ensures '/' in Joined(p) <==> |p| > 1
  {
    if |p| > 1 { AtSlash(p[0], Joined(p[1..])); }
  }

  /** The text determines the names. */
  lemma {:induction false} JoinedInjective(p: Path, q: Path)
    requires p != [] && q != [] && ValidPath(p) && ValidPath(q) && Joined(p) == Joined(q)
    ensures p == q
    decreases |p|
  {
    OneName(p);
    OneName(q);
    if |p| == 1 {
      assert p == [p[0]] && q == [q[0]];
    } else {
      HeadEqual(p[0], Joined(p[1..]), q[0], Joined(q[1..]));
      JoinedInjective(p[1..], q[1..]);
      assert p == [p[0]] + p[1..] && q == [q[0]] + q[1..];
    }
  }

  lemma {:induction false} NotDot(p: Path)
    requires p != [] && ValidPath(p)
    ensures Joined(p) != "." && Joined(p) != ""
  {
    if |p| > 1 {
      assert |p[0]| > 0 && |Joined(p)| > 1;
    }
  }

  lemma RenderedInjective(p: Path, q: Path)
    requires ValidPath(p) && ValidPath(q) && Rendered(p) == Rendered(q)
    ensures p == q
  {
    if p != [] && q != [] { JoinedInjective(p, q); }
    if p != [] { NotDot(p); }
    if q != [] { NotDot(q); }
  }

  // ------------------------------------------------------------------ the prefix test

  /** The WHERE clause: the text itself, or anything below it. */
  predicate Selected(text: string, src: string) {
    text == src || (|text| > |src| && text[..|src| + 1] == src + "/")
  }

  lemma {:induction false} JoinedBelow(src: Path, rest: Path)
    requires src != [] && rest != []
    ensures Joined(src + rest) == Joined(src) + "/" + Joined(rest)
    decreases |src|
  {
    assert (src + rest)[1..] == src[1..] + rest;
    if |src| == 1 {
      assert src[1..] + rest == rest;
    } else {
      JoinedBelow(src[1..], rest);
      calc {
        Joined(src + rest);
        src[0] + "/" + (Joined(src[1..]) + "/" + Joined(rest));
        (src[0] + "/" + Joined(src[1..])) + "/" + Joined(rest);
      }
    }
  }

  lemma SelectedBelow(p: Path, src: Path)
    requires src != [] && src <= p
    ensures Selected(Rendered(p), Rendered(src))
  {
    if p != src {
      var rest := p[|src|..];
      assert p == src + rest;
      JoinedBelow(src, rest);
      assert Rendered(p)[..|Rendered(src)| + 1] == Rendered(src) + "/";
    }
  }

  lemma {:induction false} BelowSelected(p: Path, src: Path, tail: string)
    requires src != [] && p != [] && ValidPath(p) && ValidPath(src)
    requires Joined(p) == Joined(src) + "/" + tail
    ensures src <= p
    decreases |src|
  {
    OneName(p);
    assert (Joined(src) + "/" + tail)[|Joined(src)|] == '/';
    if |src| == 1 {
      HeadEqual(p[0], Joined(p[1..]), src[0], tail);
      assert src == [src[0]];
    } else {
      var inner := Joined(src[1..]) + "/" + tail;
      assert Joined(src) + "/" + tail == src[0] + "/" + inner;
      HeadEqual(p[0], Joined(p[1..]), src[0], inner);
      BelowSelected(p[1..], src[1..], tail);
      assert p == [p[0]] + p[1..] && src == [src[0]] + src[1..];
    }
  }

  /** The rows that the statement rewrites are exactly those at and below the path. */
  lemma SelectsSubtree(p: Path, src: Path)
    requires ValidPath(p) && ValidPath(src) && src != []
    ensures Selected(Rendered(p), Rendered(src)) <==> src <= p
  {
    if src <= p {
      SelectedBelow(p, src);
    }
    if Selected(Rendered(p), Rendered(src)) {
      if Rendered(p) == Rendered(src) {
        RenderedInjective(p, src);
      } else {
        var text, n := Rendered(p), |Rendered(src)|;
        assert text == text[..n + 1] + text[n + 1..];
        NotDot(src);
        assert p != [];
        BelowSelected(p, src, text[n + 1..]);
      }
    }
  }

  /** The SET clause, the target followed by what was behind the source, is the new
      path's text. */
  lemma RewritesPath(p: Path, src: Path, dst: Path)
    requires src != [] && dst != [] && src <= p
    ensures |Rendered(src)| <= |Rendered(p)|
    ensures Rendered(dst) + Rendered(p)[|Rendered(src)|..] == Rendered(Rebase(p, src, dst))
  {
    var rest := p[|src|..];
    assert p == src + rest;
    if rest == [] {
      assert p == src && Rebase(p, src, dst) == dst;
    } else {
      JoinedBelow(src, rest);
      JoinedBelow(dst, rest);
      assert Rendered(p)[|Rendered(src)|..] == "/" + Joined(rest);
    }
  }
}
