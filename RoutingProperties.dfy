/** Properties of the URL translations of Routing.UriUtility. */
module RoutingProperties {
  import opened Wrappers
  import opened StringExtensions
  import opened Routing

  /** Collapse: backslashes become '/', no leading or doubled '/', and only separators are dropped. */
  lemma {:induction false} CollapseShape(t: string)
    ensures |Collapse(t)| <= |t|
    ensures '\\' !in Collapse(t)
    ensures Collapse(t) == [] || Collapse(t)[0] != '/'
    ensures forall k :: 0 <= k < |Collapse(t)| - 1 ==> !(Collapse(t)[k] == '/' && Collapse(t)[k + 1] == '/')
    ensures Collapse(t) != [] ==> (Collapse(t)[|Collapse(t)| - 1] == '/' <==> IsSeparator(t[|t| - 1]))
    ensures t != [] && !IsSeparator(t[|t| - 1]) ==>
              Collapse(t) != [] && Collapse(t)[|Collapse(t)| - 1] == t[|t| - 1]
    ensures Unseparated(Collapse(t)) == Unseparated(t)
  {
    if t != [] {
      var init, c := t[..|t| - 1], t[|t| - 1];
      CollapseShape(init);
      var r0 := Collapse(init);
      if !IsSeparator(c) {
        assert (r0 + [c])[..|r0|] == r0;
      } else if !(init == [] || IsSeparator(init[|init| - 1])) {
        assert (r0 + ['/'])[..|r0|] == r0;
      }
    }
  }

  predicate AllSeparators(s: string)
  {
    forall i :: 0 <= i < |s| ==> IsSeparator(s[i])
  }

  predicate NoSeparators(s: string)
  {
    forall i :: 0 <= i < |s| ==> !IsSeparator(s[i])
  }

  /** A run of separators at the very start disappears (the base already ends in '/'). */
  lemma {:induction false} CollapseLeadingRun(run: string)
    requires AllSeparators(run)
    ensures Collapse(run) == []
  {
    if run != [] {
      CollapseLeadingRun(run[..|run| - 1]);
    }
  }

  /** A run of separators after a path character becomes a single '/'. */
  lemma {:induction false} CollapseRunAfterText(t: string, run: string)
    requires t != [] && !IsSeparator(t[|t| - 1])
    requires run != [] && AllSeparators(run)
    ensures Collapse(t + run) == Collapse(t) + "/"
  {
    var init := run[..|run| - 1];
    assert (t + run)[..|t + run| - 1] == t + init;
    if init != [] {
      CollapseRunAfterText(t, init);
    }
  }

  /** Characters other than separators are copied as they are. */
  lemma {:induction false} CollapseKeepsText(t: string, w: string)
    requires NoSeparators(w)
    ensures Collapse(t + w) == Collapse(t) + w
  {
    if w != [] {
      var init := w[..|w| - 1];
      assert (t + w)[..|t + w| - 1] == t + init;
      assert (t + w)[|t + w| - 1] == w[|w| - 1];
      assert w == init + [w[|w| - 1]];
      CollapseKeepsText(t, init);
      assert Collapse(t + w) == Collapse(t + init) + [w[|w| - 1]];
      assert Collapse(t) + init + [w[|w| - 1]] == Collapse(t) + w;
    } else {
      assert t + w == t;
    }
  }

  /** ResolveUrl's scheme guard holds exactly when "://" occurs with no '?' before it. */
  lemma SchemeGuard(s: string)
    ensures HasScheme(s) <==> exists i :: SchemeBeforeQueryAt(s, i)
  {
    var idxOfScheme := IndexOf(s, "://");
    if HasScheme(s) {
      assert SchemeBeforeQueryAt(s, idxOfScheme);
    }
  }

  /** Empty, rooted and external URLs come back unchanged. */
  lemma ResolveUrlKeeps(u: UriUtility, s: string)
    requires s == "" || s[0] == '/' || s[0] == '\\' || exists i :: SchemeBeforeQueryAt(s, i)
    ensures u.ResolvedUrl(s) == s
  {
    SchemeGuard(s);
  }

  /**
   * Every other URL: the result is the prefix followed by '/', then the part before the first '?'
   * (after a leading "~/" or "~\") with its separator runs collapsed, then the query verbatim.
   */
  lemma ResolveUrlRewrites(u: UriUtility, s: string)
    requires s != "" && s[0] != '/' && s[0] != '\\'
    requires forall i :: !SchemeBeforeQueryAt(s, i)
    ensures |u.ResolveBase()| + |DropAppRoot(s)| - QueryStart(DropAppRoot(s)) <= |u.ResolvedUrl(s)|
    ensures var r, b := u.ResolvedUrl(s), u.ResolveBase();
            var rest := DropAppRoot(s);
            var q := QueryStart(rest);
            var m := r[|b|..|r| - (|rest| - q)];
            && b == EnsureEndsWith(u.appPathPrefix, '/')
            && r[..|b|] == b
            && r[|r| - (|rest| - q)..] == rest[q..]
            && '\\' !in m && '?' !in m
            && (m == [] || m[0] != '/')
            && (forall k :: 0 <= k < |m| - 1 ==> !(m[k] == '/' && m[k + 1] == '/'))
            && Unseparated(m) == Unseparated(rest[..q])
  {
    SchemeGuard(s);
    var b := u.ResolveBase();
    var rest := DropAppRoot(s);
    var q := QueryStart(rest);
    var c := Collapse(rest[..q]);
    CollapseShape(rest[..q]);
    var r := b + c + rest[q..];
    assert r == u.ResolvedUrl(s);
    assert r[|b|..|r| - (|rest| - q)] == c;
    assert '?' !in c by {
      if '?' in c {
        NoQueryMarkAfterCollapse(rest[..q]);
      }
    }
  }

  /** Collapse never produces a '?' that was not there. */
  lemma {:induction false} NoQueryMarkAfterCollapse(t: string)
    requires '?' in Collapse(t)
    ensures '?' in t
  {
    if t != [] {
      var init := t[..|t| - 1];
      if '?' in Collapse(init) {
        NoQueryMarkAfterCollapse(init);
        assert '?' in init;
        var k :| 0 <= k < |init| && init[k] == '?';
        assert t[k] == '?';
      } else {
        assert t[|t| - 1] == '?';
      }
    }
  }

  /** What ResolveUrl returns it returns unchanged: its results are rooted. */
  lemma ResolveUrlIdempotent(u: UriUtility, s: string)
    requires u.appPathPrefix == "" || u.appPathPrefix[0] == '/'
    ensures u.ResolvedUrl(u.ResolvedUrl(s)) == u.ResolvedUrl(s)
  {
    var r := u.ResolvedUrl(s);
    if !IsRootedOrAbsolute(s) {
      var b := u.ResolveBase();
      assert b != [] && b[0] == '/';
      var rest := DropAppRoot(s);
      var q := QueryStart(rest);
      assert r == b + Collapse(rest[..q]) + rest[q..];
      assert r[0] == '/';
    }
  }

  /** With no ':' before the first '?', there is no scheme to keep. */
  lemma NoSchemeWithoutColon(s: string)
    requires ':' !in s[..QueryStart(s)]
    ensures forall i :: !SchemeBeforeQueryAt(s, i)
  {
    var q := QueryStart(s);
    forall i | 0 <= i < q ensures !SchemeBeforeQueryAt(s, i) {
      assert s[i] == s[..q][i];
    }
    forall i | q < i <= |s| ensures !SchemeBeforeQueryAt(s, i) {
      assert s[..i][q] == '?';
    }
  }

  /** A relative file name (no separator, '?' or ':') is simply appended to the base. */
  lemma ResolveUrlPlainName(u: UriUtility, s: string)
    requires s != [] && NoSeparators(s) && '?' !in s && ':' !in s
    ensures u.ResolvedUrl(s) == u.ResolveBase() + s
  {
    assert QueryStart(s) == |s| && s[..|s|] == s && s[|s|..] == [];
    NoSchemeWithoutColon(s);
    SchemeGuard(s);
    CollapseKeepsText([], s);
    assert [] + s == s;
  }

  /** A run of separators between two pieces of text becomes one '/'. */
  lemma CollapseJoin(t: string, run: string, w: string)
    requires t != [] && !IsSeparator(t[|t| - 1])
    requires run != [] && AllSeparators(run)
    requires NoSeparators(w)
    ensures Collapse(t + run + w) == Collapse(t) + "/" + w
  {
    CollapseRunAfterText(t, run);
    CollapseKeepsText(t + run, w);
  }

  /**
   * A URL with no ':' and no '?' in its path part, followed by a query: the path part, after a
   * leading "~/" or "~\", is collapsed onto the base, and the query is copied verbatim.
   */
  lemma ResolveUrlSplitsQuery(u: UriUtility, path: string, query: string)
    requires path != [] && !IsSeparator(path[0]) && '?' !in path && ':' !in path
    requires query == [] || query[0] == '?'
    ensures u.ResolvedUrl(path + query) == u.ResolveBase() + Collapse(DropAppRoot(path)) + query
  {
    var s := path + query;
    assert s[..|path|] == path;
    var rest := DropAppRoot(s);
    var d := |s| - |rest|;
    assert d == |path| - |DropAppRoot(path)|;
    assert rest == DropAppRoot(path) + query by {
      if d == 2 {
        assert s[2..] == path[2..] + query;
      }
    }
    var p := DropAppRoot(path);
    assert '?' !in p by {
      assert forall k :: 0 <= k < |p| ==> p[k] == path[k + d];
    }
    assert QueryStart(rest) == |p| by {
      assert rest[..|p|] == p;
    }
    assert rest[..|p|] == p && rest[|p|..] == query;
    assert ':' !in s[..QueryStart(s)] by {
      assert QueryStart(s) == |path|;
    }
    NoSchemeWithoutColon(s);
    SchemeGuard(s);
  }
}
