/** Worked examples of resolution and prefix stripping, each proved for a whole family of inputs. */
module RoutingExamples {
  import opened Routing
  import opened RoutingProperties
  import opened TranslationProperties

  /** A path piece without separators, '?' or ':'. */
  predicate IsPlain(s: string)
  {
    NoSeparators(s) && '?' !in s && ':' !in s
  }

  /** As "page2.aspx" at the root gives "/page2.aspx". */
  lemma ResolveUrlRelativePage(u: UriUtility, name: string)
    requires u.appPathPrefix == "" && name != [] && IsPlain(name)
    ensures u.ResolvedUrl(name) == "/" + name
  {
    ResolveUrlPlainName(u, name);
  }

  /** As "~/sub/page.html" under "/app" gives "/app/sub/page.html". */
  lemma ResolveUrlAppRelative(u: UriUtility, dir: string, page: string)
    requires u.appPathPrefix == "/app"
    requires dir != [] && IsPlain(dir) && IsPlain(page)
    ensures u.ResolvedUrl("~/" + dir + "/" + page) == "/app/" + dir + "/" + page
  {
    var rest := dir + "/" + page;
    var path := "~/" + rest;
    PlainJoin(dir, "/", page);
    assert Collapse(rest) == rest by {
      CollapseTwoSegments(dir, "/", page);
    }
    var r := u.ResolveBase() + Collapse(rest);
    assert u.ResolvedUrl(path) == r by {
      assert '?' !in path && ':' !in path && DropAppRoot(path) == rest by {
        assert path[2..] == rest;
      }
      ResolveUrlSplitsQuery(u, path, []);
      assert path + [] == path && r + [] == r;
    }
    assert u.ResolveBase() == "/app/";
    Reassociate("~/", dir, "/", page);
    Reassociate("/app/", dir, "/", page);
  }

  /** Two separator-free segments joined by a run of separators collapse to "dir/page". */
  lemma CollapseTwoSegments(dir: string, run: string, page: string)
    requires dir != [] && NoSeparators(dir) && NoSeparators(page)
    requires run != [] && AllSeparators(run)
    ensures Collapse(dir + run + page) == dir + "/" + page
  {
    CollapseKeepsText([], dir);
    assert [] + dir == dir;
    CollapseJoin(dir, run, page);
  }

  /** Three such segments. */
  lemma CollapseThreeSegments(a: string, run1: string, b: string, run2: string, c: string)
    requires a != [] && b != [] && NoSeparators(a) && NoSeparators(b) && NoSeparators(c)
    requires run1 != [] && AllSeparators(run1) && run2 != [] && AllSeparators(run2)
    ensures Collapse(a + run1 + b + run2 + c) == a + "/" + b + "/" + c
  {
    CollapseTwoSegments(a, run1, b);
    var ab := a + run1 + b;
    assert ab[|ab| - 1] == b[|b| - 1];
    CollapseJoin(ab, run2, c);
  }

  /** Joining pieces free of '?' and ':' leaves no '?' or ':'. */
  lemma PlainJoin(x: string, sep: string, y: string)
    requires '?' !in x && ':' !in x && '?' !in sep && ':' !in sep && '?' !in y && ':' !in y
    ensures '?' !in x + sep + y && ':' !in x + sep + y
  {
    var s := x + sep + y;
    assert forall i :: 0 <= i < |s| ==> s[i] in x || s[i] in sep || s[i] in y;
  }

  /**
   * Regrouping a concatenation. Stated apart so that the examples get the regrouping as a fact
   * instead of deriving it next to their quantified preconditions.
   */
  lemma Reassociate(p: string, x: string, sep: string, y: string)
    ensures p + (x + sep + y) == p + x + sep + y
  {
  }

  /** As "a//b\\c?x=1//2" at the root gives "/a/b/c?x=1//2": collapsing stops at the '?'. */
  lemma ResolveUrlCollapsesBeforeQuery(u: UriUtility, a: string, b: string, c: string, query: string)
    requires u.appPathPrefix == ""
    requires a != [] && b != [] && IsPlain(a) && IsPlain(b) && IsPlain(c) && a[0] != '~'
    requires query == [] || query[0] == '?'
    ensures u.ResolvedUrl(a + "//" + b + "\\\\" + c + query) == "/" + a + "/" + b + "/" + c + query
  {
    var ab := a + "//" + b;
    var path := ab + "\\\\" + c;
    PlainJoin(a, "//", b);
    PlainJoin(ab, "\\\\", c);
    var col := a + "/" + b + "/" + c;
    assert Collapse(path) == col by {
      CollapseThreeSegments(a, "//", b, "\\\\", c);
    }
    assert u.ResolvedUrl(path + query) == "/" + col + query by {
      assert path[0] == a[0];
      ResolveUrlSplitsQuery(u, path, query);
    }
    Reassociate("/", a + "/" + b, "/", c);
    Reassociate("/", a, "/", b);
  }

  /** As "http://example.com/x" is returned as it is. */
  lemma ResolveUrlExternal(u: UriUtility, scheme: string, rest: string)
    requires '?' !in scheme
    ensures u.ResolvedUrl(scheme + "://" + rest) == scheme + "://" + rest
  {
    var s := scheme + "://" + rest;
    assert SchemeBeforeQueryAt(s, |scheme|) by {
      assert s[..|scheme|] == scheme;
      assert s[|scheme|..|scheme| + 3] == "://";
    }
    ResolveUrlKeeps(u, s);
  }

  /** Under the prefix "/foo": "/foo/bar" gives "/bar", "/foo" gives "/", "/foobar" is kept. */
  lemma AppRelativeExamples(u: UriUtility)
    requires u.appPathPrefix == "/foo"
    ensures u.ToAppRelative("/foo/bar") == "/bar"
    ensures u.ToAppRelative("/foo") == "/"
    ensures u.ToAppRelative("/foobar") == "/foobar"
  {
    AppRelativeStripsAtBoundary(u, "/foo", "/bar");
    AppRelativeStripsAtBoundary(u, "/foo", "");
    AppRelativeKeepsInsideSegment(u, "bar");
  }
}
