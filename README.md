# UriUtility: URL translation for an application in a virtual directory

This project models Umbraco's `UriUtility` (src/Umbraco.Core/Routing/UriUtility.cs). The utility holds a
two-field configuration:

- the application's virtual path, `"/"` or `"/foo"`;
- its prefix form, `""` or `"/foo"`.

Over that configuration it translates paths in both directions:

- internal content paths are lower-case, have no virtual directory and no trailing slash;
- public paths carry the virtual directory, the original case and, optionally, a trailing slash.

It also resolves `~/`-relative URLs against the application root, and checks the argument of
`ToFullUrl`.

Layout:

- `Wrappers.dfy` has `Option`, which models a string argument that may be `null` (the virtual path, and
  the arguments of `ResolveUrl` and `ToFullUrl`), and `Result`, which models a thrown exception.
- `StringExtensions.dfy` has the string operations the class relies on: `TrimStart`, `TrimEnd`,
  `EnsureEndsWith`, `InvariantStartsWith`, `ToLower` and both `IndexOf`s. Each is modelled on
  ASCII and ordinal comparison.
- `Routing.dfy` has the class with its two fields:
  - `SetAppDomainAppVirtualPath` is a method that updates them;
  - the translations are functions that read them;
  - `ResolveUrl` is a method whose character loop, `AppendCollapsed`, is proved against the
    reference function `ResolvedUrl`.
- `RoutingProperties.dfy` has what `ResolveUrl` promises: the guard, the shape of the rewrite,
  and idempotence.
- `TranslationProperties.dfy` has the translation properties, including the round trip from an
  internal URI to its public form and back.
- `RoutingExamples.dfy` has the documented examples. Each is proved for a whole family of inputs.

A `Uri` is modelled by its path alone, with authority and query carried along. `GetSafeAbsolutePath`
is the path, with `""` read as `"/"`. `Rewrite` replaces the path.

The comments at UriUtility.cs:34 and :37 say the path "will be" `"/"` or `"/foo"` and the prefix
`""` or `"/foo"`. The setter defaults only `null` to `"/"` (UriUtility.cs:23), so an empty virtual
path gives path `""` and prefix `""`. The model follows the code: the invariant it proves is that
the prefix is `""` when the path is `"/"`, and the path itself otherwise. That invariant is `Valid()`:
the constructor and both setters establish it. The translation lemmas do not require it. They are
stated for an arbitrary prefix, which is more general, and hold in particular for every
configuration the setter can produce.

## Model

| member | source | states |
|---|---|---|
| StringExtensions.ToLower | src/Umbraco.Core/Routing/UriUtility.cs:102 | same length, each character ASCII-lower-cased, result lower-case |
| StringExtensions.TrimStart | src/Umbraco.Core/Routing/UriUtility.cs:46 | result is the input without its maximal run of leading `~` (a suffix, dropped characters all `~`, no `~` left at the front) |
| StringExtensions.TrimEnd | src/Umbraco.Core/Routing/UriUtility.cs:107 | result is the input without its maximal run of trailing `/` |
| StringExtensions.TrimStartAppend | src/Umbraco.Core/Routing/UriUtility.cs:46 | trimming leading `~` commutes with appending another character |
| StringExtensions.InvariantStartsWith | src/Umbraco.Core/Routing/UriUtility.cs:54 | definition: the value is no longer than the string and each of its characters matches ignoring ASCII case |
| StringExtensions.InvariantStartsWithLower | src/Umbraco.Core/Routing/UriUtility.cs:54 | the prefix test holds exactly when the lower-case forms of the value and the string's head are equal |
| StringExtensions.EnsureEndsWith | src/Umbraco.Core/Routing/UriUtility.cs:75 | result ends with the character; unchanged if it already did, otherwise exactly one appended |
| StringExtensions.IndexOfChar | src/Umbraco.Core/Routing/UriUtility.cs:131 | -1 exactly when the character is absent, else the index of its first occurrence |
| StringExtensions.IndexOf | src/Umbraco.Core/Routing/UriUtility.cs:128 | -1 when `://` occurs nowhere, else an occurrence with none before it |
| Routing.Uri.SafeAbsolutePath | src/Umbraco.Core/Routing/UriUtility.cs:72 | never empty; a nonempty path is returned as it is (also used at :86 and :100) |
| Routing.Uri.Rewrite | src/Umbraco.Core/Routing/UriUtility.cs:79 | the new path, with authority and query unchanged (also used at :88 and :110) |
| Routing.HasScheme | src/Umbraco.Core/Routing/UriUtility.cs:128-133 | definition: `://` is found and no `?` is found before it; `RoutingProperties.SchemeGuard` characterises it |
| Routing.DropAppRoot | src/Umbraco.Core/Routing/UriUtility.cs:142-148 | the result is a suffix of the input; it is shorter, by exactly two characters, exactly when the input starts with `~/` or `~\` |
| Routing.Collapse | src/Umbraco.Core/Routing/UriUtility.cs:150-171 | definition: the reference for the loop's output before the `?`: each separator becomes `/` unless it stands first or follows a separator; other characters are kept; `RoutingProperties.CollapseShape` and the run lemmas characterise it |
| Routing.QueryStart | src/Umbraco.Core/Routing/UriUtility.cs:150-154 | position of the first `?` (or the length): no `?` before it, a `?` at it |
| Routing.AppendCollapsed | src/Umbraco.Core/Routing/UriUtility.cs:139-171 | the loop appends the part before the first `?` with separator runs collapsed, then the rest verbatim |
| Routing.UriUtility.constructor | src/Umbraco.Core/Routing/UriUtility.cs:14-18 | the new object is configured for the hosting environment's virtual path and satisfies the prefix invariant |
| Routing.UriUtility.SetAppDomainAppVirtualPath | src/Umbraco.Core/Routing/UriUtility.cs:21-27 | null gives `"/"` and `""`; `"/"` gives prefix `""`; anything else gives prefix equal to path; the prefix is always `""` or the path |
| Routing.UriUtility.ResetAppDomainAppVirtualPath | src/Umbraco.Core/Routing/UriUtility.cs:29-32 | configures for the hosting environment's virtual path |
| Routing.UriUtility.ToAbsolute | src/Umbraco.Core/Routing/UriUtility.cs:43-48 | result is the prefix followed by the URL without its leading `~`s |
| Routing.UriUtility.ToAppRelative | src/Umbraco.Core/Routing/UriUtility.cs:52-66 | never `""`; at a segment boundary after the prefix the rest is returned (`"/"` if nothing is left); otherwise the input unchanged |
| Routing.UriUtility.UriFromUmbraco | src/Umbraco.Core/Routing/UriUtility.cs:70-80 | only the path changes, and it starts with the prefix |
| Routing.UriUtility.MediaUriFromUmbraco | src/Umbraco.Core/Routing/UriUtility.cs:84-89 | only the path changes; it is the prefix followed by the safe path without its leading `~`s |
| Routing.UriUtility.UriToUmbraco | src/Umbraco.Core/Routing/UriUtility.cs:93-111 | only the path changes; it is lower-case and ends in `/` only if it is `"/"` |
| Routing.UriUtility.ResolveBase | src/Umbraco.Core/Routing/UriUtility.cs:136-137 | ends in `/`; the prefix followed by at most one character |
| Routing.UriUtility.ResolvedUrl | src/Umbraco.Core/Routing/UriUtility.cs:125-173 | definition: kept inputs are returned; otherwise base, collapsed path part after `~/`, query; `RoutingProperties.ResolveUrlKeeps` and `ResolveUrlRewrites` characterise it |
| Routing.UriUtility.ResolveUrl | src/Umbraco.Core/Routing/UriUtility.cs:121-174 | null gives `ArgumentNullException("relativeUrl")`; otherwise the result is `ResolvedUrl` of the input |
| Routing.UriUtility.ToFullUrl | src/Umbraco.Core/Routing/UriUtility.cs:188-197 | `ArgumentNullException` exactly for null or empty input; `FormatException` exactly for a nonempty path not starting with `/`; otherwise the checked path |
| RoutingProperties.CollapseShape | src/Umbraco.Core/Routing/UriUtility.cs:150-171 | collapsing never lengthens; it leaves no `\`, no leading `/`, no `//`; a nonempty result ends in `/` exactly when the input ends in a separator; the other characters are kept in order |
| RoutingProperties.CollapseLeadingRun | src/Umbraco.Core/Routing/UriUtility.cs:157-165 | a separator run at the start (after the base's `/`) disappears |
| RoutingProperties.CollapseRunAfterText | src/Umbraco.Core/Routing/UriUtility.cs:157-165 | a separator run after a path character becomes one `/` |
| RoutingProperties.CollapseKeepsText | src/Umbraco.Core/Routing/UriUtility.cs:167-170 | non-separator characters are copied as they are |
| RoutingProperties.CollapseJoin | src/Umbraco.Core/Routing/UriUtility.cs:157-170 | text, separator run, text collapses to text, `/`, text |
| RoutingProperties.NoQueryMarkAfterCollapse | src/Umbraco.Core/Routing/UriUtility.cs:150-171 | collapsing introduces no `?` |
| RoutingProperties.SchemeGuard | src/Umbraco.Core/Routing/UriUtility.cs:128-133 | the guard holds exactly when `://` occurs somewhere with no `?` before it |
| RoutingProperties.NoSchemeWithoutColon | src/Umbraco.Core/Routing/UriUtility.cs:128-133 | with no `:` before the first `?`, the scheme guard cannot fire |
| RoutingProperties.ResolveUrlKeeps | src/Umbraco.Core/Routing/UriUtility.cs:125-133 | empty, rooted (`/` or `\`) and scheme URLs come back unchanged |
| RoutingProperties.ResolveUrlRewrites | src/Umbraco.Core/Routing/UriUtility.cs:135-173 | any other URL gives prefix+`/`, then a middle part with no `\`, `?`, leading `/` or `//` and the same non-separator characters as the path part, then the query verbatim |
| RoutingProperties.ResolveUrlIdempotent | src/Umbraco.Core/Routing/UriUtility.cs:121-174 | with a rooted or empty prefix, resolving a resolved URL changes nothing |
| RoutingProperties.ResolveUrlPlainName | src/Umbraco.Core/Routing/UriUtility.cs:117-118 | a plain file name is appended to the base |
| RoutingProperties.ResolveUrlSplitsQuery | src/Umbraco.Core/Routing/UriUtility.cs:139-171 | the path part (after `~/`) is collapsed onto the base and the query is copied verbatim |
| TranslationProperties.AppRelativeOfAbsolute | src/Umbraco.Core/Routing/UriUtility.cs:43-66 | `ToAppRelative(ToAbsolute(p)) == p` for every rooted `p` and every prefix |
| TranslationProperties.AppRelativeStripsAtBoundary | src/Umbraco.Core/Routing/UriUtility.cs:54-63 | the prefix, in any case, is stripped when the end of the path or a `/` follows it |
| TranslationProperties.AppRelativeKeepsInsideSegment | src/Umbraco.Core/Routing/UriUtility.cs:54-58 | the prefix followed by a non-`/` character is kept |
| TranslationProperties.ToAbsoluteRooted | src/Umbraco.Core/Routing/UriUtility.cs:43-48 | a rooted path just gets the prefix in front |
| TranslationProperties.UriFromUmbracoRoot | src/Umbraco.Core/Routing/UriUtility.cs:72-79 | `/` becomes prefix+`/`, never with an extra slash |
| TranslationProperties.UriFromUmbracoTrailingSlash | src/Umbraco.Core/Routing/UriUtility.cs:72-79 | with trailing slashes on, any other path ends in `/`, with one added exactly when it lacked one |
| TranslationProperties.UriFromUmbracoNoSlash | src/Umbraco.Core/Routing/UriUtility.cs:72-79 | with trailing slashes off, the path is `ToAbsolute` of the safe path |
| TranslationProperties.MediaIsUnslashed | src/Umbraco.Core/Routing/UriUtility.cs:84-89 | media translation equals content translation with trailing slashes off |
| TranslationProperties.UriToUmbracoStripsVdir | src/Umbraco.Core/Routing/UriUtility.cs:100-110 | the lower-cased path loses the prefix at a segment boundary, then its trailing slashes, and `"/"` stays `"/"` |
| TranslationProperties.InternalPublicRoundTrip | src/Umbraco.Core/Routing/UriUtility.cs:70-111 | a canonical internal URI survives the trip to its public form and back, for any prefix and slash setting |
| TranslationProperties.TrimAddedSlash | src/Umbraco.Core/Routing/UriUtility.cs:105-108 | trimming a canonical path, with or without one added `/`, gives it back |
| RoutingExamples.ResolveUrlRelativePage | src/Umbraco.Core/Routing/UriUtility.cs:117-118 | `page2.aspx` at the root resolves to `/page2.aspx` (for every plain name) |
| RoutingExamples.ResolveUrlAppRelative | src/Umbraco.Core/Routing/UriUtility.cs:142-171 | `~/sub/page.html` under `/app` resolves to `/app/sub/page.html` (for every plain pair) |
| RoutingExamples.ResolveUrlCollapsesBeforeQuery | src/Umbraco.Core/Routing/UriUtility.cs:150-171 | `a//b\\c?q` at the root resolves to `/a/b/c?q` with the query untouched |
| RoutingExamples.ResolveUrlExternal | src/Umbraco.Core/Routing/UriUtility.cs:128-133 | `scheme://rest` is returned as it is |
| RoutingExamples.AppRelativeExamples | src/Umbraco.Core/Routing/UriUtility.cs:52-66 | under `/foo`: `/foo/bar` gives `/bar`, `/foo` gives `/`, `/foobar` is kept |
| RoutingExamples.CollapseTwoSegments | src/Umbraco.Core/Routing/UriUtility.cs:157-170 | two separator-free segments around a separator run collapse to `x/y` |
| RoutingExamples.CollapseThreeSegments | src/Umbraco.Core/Routing/UriUtility.cs:157-170 | three segments around two runs collapse to `x/y/z` |

## Left out

- ToAbsolute, ToAppRelative, UriFromUmbraco, MediaUriFromUmbraco and UriToUmbraco take `string` and `Uri` values that cannot be null, so the `NullReferenceException` a null argument raises in C# (for instance `url.TrimStart` at :46, `virtualPath.InvariantStartsWith` at :54, `uri.GetSafeAbsolutePath()` at :72) is not modelled.
- The other files of the repository (a tree controller, a member-manager interface, a notification object) hold no logic of this component.
- `ToFullUrl`: the final combining of the path with the request's scheme, host and port (`MakeAbsolute`, an extension over `System.Uri` whose code is not shown) is left out. The model returns the checked path.
- The constructor's null check of `IHostingEnvironment`: a `HostingEnvironment` value cannot be null here. Only its virtual path, which may be `None`, is modelled.
- The fields are static in C#, so every instance and thread shares one configuration. The model has one configuration per object and no concurrency.
- `ToLower` and `InvariantStartsWith` are culture-sensitive in .NET. The model uses ASCII case only.
- `StartsWith("/")` in `ToFullUrl` is culture-sensitive in .NET. The model compares the first character ordinally.
- `System.Uri` is reduced to its path. Percent-encoding and the parsing of authority and query are not modelled. `GetSafeAbsolutePath` is the path, with `""` read as `"/"`.
- Routing.UriUtility.UriToUmbraco: the contract does not promise a nonempty path. A path such as `"//"` at the root trims down to `""`, and the code does that as written.
