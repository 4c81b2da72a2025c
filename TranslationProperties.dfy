/** Properties of the path translations between public and internal URIs. */
module TranslationProperties {
  import opened StringExtensions
  import opened Routing

  /** Lower-casing distributes over concatenation. */
  lemma ToLowerAppend(s: string, t: string)
    ensures ToLower(s + t) == ToLower(s) + ToLower(t)
  {
    assert |ToLower(s + t)| == |ToLower(s) + ToLower(t)|;
    forall i | 0 <= i < |s + t|
      ensures ToLower(s + t)[i] == (ToLower(s) + ToLower(t))[i]
    {
      if i >= |s| {
        assert (s + t)[i] == t[i - |s|];
      }
    }
  }

  /** An already lower-case string is its own lower-case form. */
  lemma ToLowerOfLower(s: string)
    requires IsLower(s)
    ensures ToLower(s) == s
  {
  }

  /** A string starts with its own lower-case form, ignoring case. */
  lemma StartsWithOwnLower(s: string, t: string)
    ensures InvariantStartsWith(ToLower(s) + t, s)
  {
    var v := ToLower(s) + t;
    forall i | 0 <= i < |s| ensures LowerChar(v[i]) == LowerChar(s[i]) {
      assert v[i] == LowerChar(s[i]);
    }
  }

  /** ToAbsolute of a rooted path just puts the prefix in front. */
  lemma ToAbsoluteRooted(u: UriUtility, p: string)
    requires p != "" && p[0] == '/'
    ensures u.ToAbsolute(p) == u.appPathPrefix + p
  {
  }

  /** ToAppRelative undoes ToAbsolute on every rooted path. */
  lemma AppRelativeOfAbsolute(u: UriUtility, p: string)
    requires p != "" && p[0] == '/'
    ensures u.ToAppRelative(u.ToAbsolute(p)) == p
  {
    var v := u.ToAbsolute(p);
    assert v == u.appPathPrefix + p;
    assert v[|u.appPathPrefix|..] == p;
    assert u.AtSegmentBoundary(v);
  }

  /**
   * The prefix, in any case, is stripped when a segment boundary follows it: "/foo/bar" gives
   * "/bar" and "/foo" gives "/" under the prefix "/foo".
   */
  lemma AppRelativeStripsAtBoundary(u: UriUtility, head: string, t: string)
    requires |head| == |u.appPathPrefix| && InvariantStartsWith(head, u.appPathPrefix)
    requires t == "" || t[0] == '/'
    ensures u.ToAppRelative(head + t) == if t == "" then "/" else t
  {
    var v := head + t;
    assert v[..|head|] == head && v[|head|..] == t;
    assert u.AtSegmentBoundary(v);
  }

  /**
   * The prefix is kept when it does not end a segment: "/foobar" stays "/foobar" under
   * the prefix "/foo".
   */
  lemma AppRelativeKeepsInsideSegment(u: UriUtility, t: string)
    requires t != "" && t[0] != '/'
    ensures u.ToAppRelative(u.appPathPrefix + t) == u.appPathPrefix + t
  {
    var v := u.appPathPrefix + t;
    assert v[|u.appPathPrefix|] == t[0];
  }

  /** The root keeps its single slash: "/" maps to the prefix followed by "/". */
  lemma UriFromUmbracoRoot(u: UriUtility, uri: Uri, requestConfig: RequestHandlerSettings)
    requires uri.SafeAbsolutePath() == "/"
    ensures u.UriFromUmbraco(uri, requestConfig).path == u.appPathPrefix + "/"
  {
  }

  /** With trailing slashes on, any other path ends in exactly one added '/' (none if it has one). */
  lemma UriFromUmbracoTrailingSlash(u: UriUtility, uri: Uri, requestConfig: RequestHandlerSettings)
    requires requestConfig.addTrailingSlash && uri.SafeAbsolutePath() != "/"
    ensures var p := uri.SafeAbsolutePath();
            u.UriFromUmbraco(uri, requestConfig).path ==
              u.ToAbsolute(p) + (if EndsWithChar(p, '/') then "" else "/")
    ensures EndsWithChar(u.UriFromUmbraco(uri, requestConfig).path, '/')
  {
    var p := uri.SafeAbsolutePath();
    if !EndsWithChar(p, '/') {
      TrimStartAppend(p, '~', '/');
      assert u.ToAbsolute(p + "/") == u.appPathPrefix + TrimStart(p, '~') + "/";
    }
  }

  /** With trailing slashes off, the path only gets the prefix. */
  lemma UriFromUmbracoNoSlash(u: UriUtility, uri: Uri, requestConfig: RequestHandlerSettings)
    requires !requestConfig.addTrailingSlash
    ensures u.UriFromUmbraco(uri, requestConfig) == uri.Rewrite(u.ToAbsolute(uri.SafeAbsolutePath()))
  {
  }

  /** Media URIs are translated like content URIs with trailing slashes off. */
  lemma MediaIsUnslashed(u: UriUtility, uri: Uri)
    ensures u.MediaUriFromUmbraco(uri) == u.UriFromUmbraco(uri, RequestHandlerSettings(false))
  {
  }

  /**
   * UriToUmbraco strips the virtual directory when the lower-cased path starts with it (in any
   * case) at a segment boundary, and otherwise keeps the whole path; either way without the
   * trailing slashes, unless only "/" is left.
   */
  lemma UriToUmbracoStripsVdir(u: UriUtility, uri: Uri)
    ensures var lower := ToLower(uri.SafeAbsolutePath());
            var rest := if u.AtSegmentBoundary(lower) then lower[|u.appPathPrefix|..] else lower;
            var r := u.UriToUmbraco(uri).path;
            if rest == "" || rest == "/" then r == "/" else IsTrimmedEnd(rest, '/', r)
  {
  }

  /**
   * A canonical internal URI (rooted, lower-case, no trailing slash except the root) survives
   * the trip to its public form and back, whatever the prefix and the slash setting.
   */
  lemma InternalPublicRoundTrip(u: UriUtility, uri: Uri, requestConfig: RequestHandlerSettings)
    requires uri.path != "" && uri.path[0] == '/' && IsLower(uri.path)
    requires uri.path == "/" || !EndsWithChar(uri.path, '/')
    ensures u.UriToUmbraco(u.UriFromUmbraco(uri, requestConfig)) == uri
  {
    var p := uri.path;
    var prefix := u.appPathPrefix;
    var t := if p != "/" && requestConfig.addTrailingSlash then p + "/" else p;
    var pub := u.UriFromUmbraco(uri, requestConfig);
    assert pub == uri.Rewrite(prefix + t) by {
      assert t[0] == '/';
      ToAbsoluteRooted(u, t);
    }
    assert u.ToAppRelative(ToLower(prefix + t)) == t by {
      assert IsLower(t);
      ToLowerAppend(prefix, t);
      ToLowerOfLower(t);
      StartsWithOwnLower(prefix, t);
      AppRelativeStripsAtBoundary(u, ToLower(prefix), t);
    }
    assert (if t != "/" then TrimEnd(t, '/') else t) == p by {
      TrimAddedSlash(p, t);
    }
  }

  /** Trimming the trailing slashes of a canonical path, with or without one added, gives it back. */
  lemma TrimAddedSlash(p: string, t: string)
    requires p != "" && p[0] == '/' && (p == "/" || !EndsWithChar(p, '/'))
    requires t == p || (p != "/" && t == p + "/")
    ensures (if t != "/" then TrimEnd(t, '/') else t) == p
  {
    if t != p {
      assert t[..|t| - 1] == p;
    }
  }
}
