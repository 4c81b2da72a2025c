/**
 * UriUtility: translation between public URLs (with the application's virtual directory,
 * original case, optional trailing slash) and internal content paths (lower-case, without
 * the virtual directory, without a trailing slash), and resolution of "~/"-relative URLs.
 */
module Routing {
  import opened Wrappers
  import opened StringExtensions

  /** The exceptions UriUtility throws. */
  datatype UriError = ArgumentNull(paramName: string) | FormatError(message: string)

  /** The collaborator that supplies the application's virtual path (null when absent). */
  datatype HostingEnvironment = HostingEnvironment(applicationVirtualPath: Option<string>)

  /** The request handler's setting that decides on trailing slashes. */
  datatype RequestHandlerSettings = RequestHandlerSettings(addTrailingSlash: bool)

  /** A URI; only its path is ever rewritten here. */
  datatype Uri = Uri(authority: string, path: string, query: string)
  {
    /** GetSafeAbsolutePath: the path, never empty ("/" at the root). */
    function SafeAbsolutePath(): (p: string)
      ensures p != ""
      ensures path != "" ==> p == path
    {
      if path == "" then "/" else path
    }

    /** Rewrite: the same URI with another path. */
    function Rewrite(newPath: string): (r: Uri)
      ensures r.path == newPath && r.authority == authority && r.query == query
    {
      this.(path := newPath)
    }
  }

  predicate IsSeparator(c: char)
  {
    c == '/' || c == '\\'
  }

  /** "://" occurs at i, and no '?' comes before it. */
  predicate SchemeBeforeQueryAt(s: string, i: int)
  {
    OccursAt(s, "://", i) && '?' !in s[..i]
  }

  /** The guard of ResolveUrl that leaves a URL with a scheme untouched. */
  predicate HasScheme(s: string)
  {
    var idxOfScheme := IndexOf(s, "://");
    var idxOfQM := IndexOfChar(s, '?');
    idxOfScheme != -1 && (idxOfQM == -1 || idxOfQM > idxOfScheme)
  }

  /** The inputs ResolveUrl returns as they are. */
  predicate IsRootedOrAbsolute(s: string)
  {
    s == "" || IsSeparator(s[0]) || HasScheme(s)
  }

  /** The input without a leading "~/" or "~\". */
  function DropAppRoot(s: string): (r: string)
    ensures |r| <= |s| && r == s[|s| - |r|..]
    ensures |r| < |s| <==> |s| > 1 && s[0] == '~' && IsSeparator(s[1])
    ensures |r| < |s| ==> |r| == |s| - 2
  {
    if |s| > 1 && s[0] == '~' && IsSeparator(s[1]) then s[2..] else s
  }

  /** Where the query string starts: the first '?', or the length when there is none. */
  function QueryStart(s: string): (q: nat)
    ensures q <= |s|
    ensures '?' !in s[..q]
    ensures q < |s| ==> s[q] == '?'
  {
    var i := IndexOfChar(s, '?');
    if i == -1 then
      assert s[..|s|] == s;
      |s|
    else i
  }

  /** The characters of s that are not separators, in order. */
  function Unseparated(s: string): string
  {
    if s == [] then []
    else Unseparated(s[..|s| - 1]) + (if IsSeparator(s[|s| - 1]) then [] else [s[|s| - 1]])
  }

  /**
   * The path part of a resolved URL, as it follows the slash that ends the base: each separator
   * ('/' or '\') becomes '/', unless the character before it is a separator too or it stands
   * first (the base already ends in '/'); every other character is kept.
   */
  function Collapse(t: string): string
  {
    if t == [] then []
    else
      var init, c := t[..|t| - 1], t[|t| - 1];
      if !IsSeparator(c) then Collapse(init) + [c]
      else if init == [] || IsSeparator(init[|init| - 1]) then Collapse(init)
      else Collapse(init) + ['/']
  }

  /**
   * Collapse over one more character of s, told by the loop's flag: foundSlash says whether the
   * character before was a separator (or, at the start, whether the base's '/' stands for it).
   */
  lemma CollapseFlagStep(s: string, i: nat, foundSlash: bool)
    requires i < |s|
    requires i == 0 ==> foundSlash || !IsSeparator(s[0])
    requires i > 0 ==> (foundSlash <==> IsSeparator(s[i - 1]))
    ensures Collapse(s[..i + 1]) ==
              Collapse(s[..i]) + (if !IsSeparator(s[i]) then [s[i]] else if foundSlash then [] else "/")
  {
    assert s[..i + 1][..i] == s[..i];
  }

  /**
   * Regrouping a concatenation of three strings. Stated apart so that the loop below gets the
   * regrouping as a fact instead of deriving it among its own invariants.
   */
  lemma AppendAssoc(a: string, b: string, c: string)
    ensures a + b + c == a + (b + c)
  {
  }

  /**
   * The character loop of ResolveUrl: appends url to sbUrl, turning each run of separators
   * before the first '?' into one '/', and copying the '?' and all after it verbatim.
   * foundSlash tells whether the last character taken was a separator.
   */
  method AppendCollapsed(sbUrl0: string, url: string, foundSlash0: bool) returns (sbUrl: string)
    requires foundSlash0 || url == [] || !IsSeparator(url[0])
    ensures sbUrl == sbUrl0 + Collapse(url[..QueryStart(url)]) + url[QueryStart(url)..]
  {
    sbUrl := sbUrl0;
    // foundQM: the '?' that opens the query has been taken, so the rest is copied as it is
    var foundQM := false;
    var foundSlash := foundSlash0;
    ghost var q := QueryStart(url);
    assert url[..0] == [];
    for i := 0 to |url|
      invariant foundQM <==> i > q
      invariant !foundQM ==> sbUrl == sbUrl0 + Collapse(url[..i])
      invariant foundQM ==> sbUrl == sbUrl0 + Collapse(url[..q]) + url[q..i]
      invariant !foundQM && i > 0 ==> (foundSlash <==> IsSeparator(url[i - 1]))
      invariant i == 0 ==> foundSlash || url == [] || !IsSeparator(url[0])
    {
      var c := url[i];
      if !foundQM {
        if c == '?' {
          foundQM := true;
          assert url[q..i + 1] == [c];
        } else {
          CollapseFlagStep(url, i, foundSlash);
          AppendAssoc(sbUrl0, Collapse(url[..i]), if IsSeparator(c) then "/" else [c]);
          if c == '/' || c == '\\' {
            if !foundSlash {
              sbUrl := sbUrl + "/";
              foundSlash := true;
            }
            continue;
          } else if foundSlash {
            foundSlash := false;
          }
        }
      } else {
        assert url[q..i + 1] == url[q..i] + [c];
        AppendAssoc(sbUrl0 + Collapse(url[..q]), url[q..i], [c]);
      }
      sbUrl := sbUrl + [c];
    }
    assert url[..|url|] == url;
    if q == |url| {
      assert url[q..] == [];
    }
  }

  class UriUtility
  {
    /** The virtual directory: "/" or "/foo". */
    var appPath: string
    /** Its prefix form: "" or "/foo". */
    var appPathPrefix: string

    /** The prefix is the path, except that the root "/" has the empty prefix. */
    ghost predicate Valid()
      reads this
    {
      if appPath == "/" then appPathPrefix == "" else appPathPrefix == appPath
    }

    /** The configuration SetAppDomainAppVirtualPath(virtualPath) leaves behind. */
    ghost predicate ConfiguredFor(virtualPath: Option<string>)
      reads this
    {
      && appPath == (if virtualPath.None? then "/" else virtualPath.value)
      && appPathPrefix == (if appPath == "/" then "" else appPath)
    }

    constructor (hostingEnvironment: HostingEnvironment)
      ensures Valid()
      ensures ConfiguredFor(hostingEnvironment.applicationVirtualPath)
    {
      appPath, appPathPrefix := "/", "";
      new;
      ResetAppDomainAppVirtualPath(hostingEnvironment);
    }

    method SetAppDomainAppVirtualPath(virtualPath: Option<string>)
      modifies this
      ensures Valid()
      ensures ConfiguredFor(virtualPath)
      ensures virtualPath.None? ==> appPath == "/" && appPathPrefix == ""
      ensures virtualPath == Some("/") ==> appPathPrefix == ""
      ensures virtualPath.Some? && virtualPath.value != "/" ==> appPath == appPathPrefix == virtualPath.value
    {
      appPath := if virtualPath.None? then "/" else virtualPath.value;
      appPathPrefix := appPath;
      if appPathPrefix == "/" {
        appPathPrefix := "";
      }
    }

    method ResetAppDomainAppVirtualPath(hostingEnvironment: HostingEnvironment)
      modifies this
      ensures Valid()
      ensures ConfiguredFor(hostingEnvironment.applicationVirtualPath)
    {
      SetAppDomainAppVirtualPath(hostingEnvironment.applicationVirtualPath);
    }

    /** ToAbsolute: the prefix, then url without its leading '~'s. */
    function ToAbsolute(url: string): (r: string)
      reads this
      ensures |appPathPrefix| <= |r| && r[..|appPathPrefix|] == appPathPrefix
      ensures IsTrimmedStart(url, '~', r[|appPathPrefix|..])
    {
      appPathPrefix + TrimStart(url, '~')
    }

    /** The path begins with the prefix (ignoring case) and the prefix ends a segment. */
    predicate AtSegmentBoundary(virtualPath: string)
      reads this
    {
      && InvariantStartsWith(virtualPath, appPathPrefix)
      && (|virtualPath| == |appPathPrefix| || virtualPath[|appPathPrefix|] == '/')
    }

    /** ToAppRelative: strips the prefix at a segment boundary; never returns "". */
    function ToAppRelative(virtualPath: string): (r: string)
      reads this
      ensures r != ""
      ensures virtualPath == "" ==> r == "/"
      ensures AtSegmentBoundary(virtualPath) && |virtualPath| == |appPathPrefix| ==> r == "/"
      ensures AtSegmentBoundary(virtualPath) && |virtualPath| > |appPathPrefix| ==>
                r[0] == '/' && virtualPath == virtualPath[..|appPathPrefix|] + r
      ensures !AtSegmentBoundary(virtualPath) && virtualPath != "" ==> r == virtualPath
    {
      var stripped :=
        if AtSegmentBoundary(virtualPath) then virtualPath[|appPathPrefix|..] else virtualPath;
      if |stripped| == 0 then "/" else stripped
    }

    /** UriFromUmbraco: internal URI to public URI (only the path changes). */
    function UriFromUmbraco(uri: Uri, requestConfig: RequestHandlerSettings): (r: Uri)
      reads this
      ensures r == uri.Rewrite(r.path)
      ensures |appPathPrefix| <= |r.path| && r.path[..|appPathPrefix|] == appPathPrefix
    {
      var path := uri.SafeAbsolutePath();
      var path := if path != "/" && requestConfig.addTrailingSlash then EnsureEndsWith(path, '/') else path;
      uri.Rewrite(ToAbsolute(path))
    }

    /** MediaUriFromUmbraco: the virtual directory is all that media URIs get. */
    function MediaUriFromUmbraco(uri: Uri): (r: Uri)
      reads this
      ensures r == uri.Rewrite(r.path)
      ensures |appPathPrefix| <= |r.path| && r.path[..|appPathPrefix|] == appPathPrefix
      ensures IsTrimmedStart(uri.SafeAbsolutePath(), '~', r.path[|appPathPrefix|..])
    {
      var path := uri.SafeAbsolutePath();
      uri.Rewrite(ToAbsolute(path))
    }

    /** UriToUmbraco: public URI to internal URI (only the path changes). */
    function UriToUmbraco(uri: Uri): (r: Uri)
      reads this
      ensures r == uri.Rewrite(r.path)
      ensures IsLower(r.path)
      ensures r.path == "/" || !EndsWithChar(r.path, '/')
    {
      var path := ToLower(uri.SafeAbsolutePath());
      var path := ToAppRelative(path);
      var path := if path != "/" then TrimEnd(path, '/') else path;
      uri.Rewrite(path)
    }

    /** The base every resolved URL starts with: the prefix, ending in '/'. */
    function ResolveBase(): (b: string)
      reads this
      ensures EndsWithChar(b, '/')
      ensures |appPathPrefix| <= |b| <= |appPathPrefix| + 1 && b[..|appPathPrefix|] == appPathPrefix
    {
      EnsureEndsWith(appPathPrefix, '/')
    }

    /** What ResolveUrl returns for a non-null argument. */
    function ResolvedUrl(relativeUrl: string): string
      reads this
    {
      if IsRootedOrAbsolute(relativeUrl) then relativeUrl
      else
        var rest := DropAppRoot(relativeUrl);
        var q := QueryStart(rest);
        ResolveBase() + Collapse(rest[..q]) + rest[q..]
    }

    /** ResolveUrl: resolves a relative URL against the application root. */
    method ResolveUrl(relativeUrl: Option<string>) returns (r: Result<string, UriError>)
      ensures relativeUrl.None? ==> r == Failure(ArgumentNull("relativeUrl"))
      ensures relativeUrl.Some? ==> r == Success(ResolvedUrl(relativeUrl.value))
    {
      if relativeUrl.None? {
        return Failure(ArgumentNull("relativeUrl"));
      }
      var url := relativeUrl.value;
      if |url| == 0 || url[0] == '/' || url[0] == '\\' {
        return Success(url);
      }
      var idxOfScheme := IndexOf(url, "://");
      if idxOfScheme != -1 {
        var idxOfQM := IndexOfChar(url, '?');
        if idxOfQM == -1 || idxOfQM > idxOfScheme {
          return Success(url);
        }
      }

      assert !IsRootedOrAbsolute(url);
      var sbUrl := appPathPrefix;
      if |sbUrl| == 0 || sbUrl[|sbUrl| - 1] != '/' {
        sbUrl := sbUrl + "/";
      }
      var foundSlash: bool;
      if |url| > 1 && url[0] == '~' && (url[1] == '/' || url[1] == '\\') {
        url := url[2..];
        foundSlash := true;
      } else {
        foundSlash := false;
      }
      assert url == DropAppRoot(relativeUrl.value);
      sbUrl := AppendCollapsed(sbUrl, url, foundSlash);
      return Success(sbUrl);
    }

    /** ToFullUrl's argument checks; on success, the path that is combined with the request's host. */
    function ToFullUrl(absolutePath: Option<string>): (r: Result<string, UriError>)
      ensures r == Failure(ArgumentNull("absolutePath")) <==> absolutePath.None? || absolutePath.value == ""
      ensures r.Failure? && r.error.FormatError? <==>
                absolutePath.Some? && absolutePath.value != "" && absolutePath.value[0] != '/'
      ensures r.Success? ==> absolutePath == Some(r.value) && r.value != "" && r.value[0] == '/'
    {
      if absolutePath.None? || absolutePath.value == "" then
        Failure(ArgumentNull("absolutePath"))
      else if absolutePath.value[0] != '/' then
        Failure(FormatError("The absolutePath specified does not start with a '/'"))
      else
        Success(absolutePath.value)
    }
  }
}
