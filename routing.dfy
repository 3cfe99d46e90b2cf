/** The request dispatch decision of the guestbook handler (`do_GET`, `do_POST`).
    GET requests are routed on the path component of the request target, POST
    requests on the raw request target itself. */
module Routing {

  datatype Method = Get | Post

  /** What the handler decides to do with a request. */
  datatype Action =
    | SendHtml(page: string, status: int)   // `send_html_file(page, status)`
    | SendStatic(file: string)              // `send_static_file(Path(file))`
    | AcceptSubmission                      // the form-handling branch of `do_POST`

  const IndexPage := "index.html"
  const MessagePage := "message.html"
  const ErrorPage := "error.html"
  const SubmitPath := "/message"

  /** Characters that end the path component of a request target. */
  const QueryOrFragment: set<char> := {'?', '#'}

  /** The longest prefix of `s` that contains no character of `stops`. */
  function Before(s: string, stops: set<char>): (r: string)
    ensures r <= s
    ensures forall i :: 0 <= i < |r| ==> r[i] !in stops
    ensures |r| < |s| ==> s[|r|] in stops
  {
    if s == [] || s[0] in stops then [] else [s[0]] + Before(s[1..], stops)
  }

  /** The index just past the last '/' of `p`, or 0 when `p` has none:
      where the last path segment starts. */
  function SegmentStart(p: string): (j: nat)
    ensures j <= |p|
    ensures j > 0 ==> p[j - 1] == '/'
    ensures forall k :: j <= k < |p| ==> p[k] != '/'
  {
    if p == [] then 0
    else if p[|p| - 1] == '/' then |p|
    else SegmentStart(p[..|p| - 1])
  }

  /** `urlparse` splits `;params` off the last path segment only. */
  function StripParams(p: string): (r: string)
    ensures r <= p
    // the cut, if any, is at a ';' inside the last segment ...
    ensures |r| < |p| ==> p[|r|] == ';' && forall k :: |r| <= k < |p| ==> p[k] != '/'
    // ... and at the first such ';'
    ensures SegmentStart(p) <= |r|
    ensures forall k :: SegmentStart(p) <= k < |r| ==> p[k] != ';'
  {
    var j := SegmentStart(p);
    p[..j] + Before(p[j..], {';'})
  }

  /** The `path` field of `urllib.parse.urlparse(raw)` for a request target in
      origin form: the part before the query or fragment, without the
      parameters of its last segment. */
  function UrlPath(raw: string): (r: string)
    ensures r <= raw
    ensures forall i :: 0 <= i < |r| ==> r[i] !in QueryOrFragment
    // the path ends at the first '?' or '#', or earlier at a ';' of its last segment
    ensures |r| < |raw| ==> raw[|r|] in {'?', '#', ';'}
    ensures |r| < |raw| && raw[|r|] == ';' ==> forall k :: |r| <= k < |Before(raw, QueryOrFragment)| ==> raw[k] != '/'
    // parameters are cut at the first ';' of the last segment, and only there
    ensures SegmentStart(Before(raw, QueryOrFragment)) <= |r|
    ensures forall k :: SegmentStart(Before(raw, QueryOrFragment)) <= k < |r| ==> raw[k] != ';'
  {
    StripParams(Before(raw, QueryOrFragment))
  }

  /** `pr_url.path[1:]`: the path with its first character removed, so that
      "/a/b.css" names "a/b.css" relative to the working directory. Nothing
      confines it further. */
  function StaticPath(path: string): (r: string)
    ensures |path| > 0 ==> [path[0]] + r == path
    ensures |path| == 0 ==> r == ""
  {
    if |path| == 0 then "" else path[1..]
  }

  /** The routing of `do_GET` and `do_POST`. `isFile` answers, for a path
      relative to the working directory, whether it exists and is a regular
      file (`exists() and is_file()`). */
  function Dispatch(m: Method, raw: string, isFile: string -> bool): (a: Action)
    // GET on the query-stripped path "/" renders the index page
    ensures a == SendHtml(IndexPage, 200) <==> m == Get && UrlPath(raw) == "/"
    // GET on "/message" renders the form page
    ensures a == SendHtml(MessagePage, 200) <==> m == Get && UrlPath(raw) == SubmitPath
    // a static file is served only for another GET path naming an existing regular file
    ensures a.SendStatic? <==>
      m == Get && UrlPath(raw) != "/" && UrlPath(raw) != SubmitPath && isFile(StaticPath(UrlPath(raw)))
    ensures a.SendStatic? ==> a.file == StaticPath(UrlPath(raw)) && isFile(a.file)
    // a submission is accepted only when the raw target is exactly "/message"
    ensures a == AcceptSubmission <==> m == Post && raw == SubmitPath
    // every other request gets the error page with status 404
    ensures a.SendHtml? ==> a.page in {IndexPage, MessagePage, ErrorPage}
    ensures a.SendHtml? ==> (a.status == 404 <==> a.page == ErrorPage)
    ensures a.SendHtml? ==> a.status == 200 || a.status == 404
  {
    match m
    case Get =>
      var path := UrlPath(raw);
      if path == "/" then SendHtml(IndexPage, 200)
      else if path == SubmitPath then SendHtml(MessagePage, 200)
      else if isFile(StaticPath(path)) then SendStatic(StaticPath(path))
      else SendHtml(ErrorPage, 404)
    case Post =>
      if raw == SubmitPath then AcceptSubmission else SendHtml(ErrorPage, 404)
  }

  /** A path with no '?', '#' or ';' in it. */
  predicate Plain(p: string)
  {
    forall i :: 0 <= i < |p| ==> p[i] != '?' && p[i] != '#' && p[i] != ';'
  }

  lemma {:induction false} BeforeStopsAt(p: string, c: char, rest: string, stops: set<char>)
    requires forall i :: 0 <= i < |p| ==> p[i] !in stops
    requires c in stops
    ensures Before(p + [c] + rest, stops) == p
  {
    if p != [] {
      assert (p + [c] + rest)[1..] == p[1..] + [c] + rest;
      BeforeStopsAt(p[1..], c, rest, stops);
    }
  }

  lemma {:induction false} BeforeWhole(p: string, stops: set<char>)
    requires forall i :: 0 <= i < |p| ==> p[i] !in stops
    ensures Before(p, stops) == p
  {
    if p != [] {
      BeforeWhole(p[1..], stops);
    }
  }

  /** A target without query, fragment or parameters is its own path. */
  lemma UrlPathOfPlain(p: string)
    requires Plain(p)
    ensures UrlPath(p) == p
  {
    BeforeWhole(p, QueryOrFragment);
    var j := SegmentStart(p);
    BeforeWhole(p[j..], {';'});
    assert p[..j] + p[j..] == p;
  }

  /** Whatever follows the first '?' or '#' of the target does not change
      the path GET routes on. */
  lemma UrlPathIgnoresQuery(p: string, c: char, rest: string)
    requires forall i :: 0 <= i < |p| ==> p[i] !in QueryOrFragment
    requires c in QueryOrFragment
    ensures UrlPath(p + [c] + rest) == UrlPath(p)
  {
    BeforeStopsAt(p, c, rest, QueryOrFragment);
    BeforeWhole(p, QueryOrFragment);
  }

  /** GET "/" with any query string renders the index page with status 200. */
  lemma IndexWithAnyQuery(query: string, isFile: string -> bool)
    ensures Dispatch(Get, "/", isFile) == SendHtml(IndexPage, 200)
    ensures Dispatch(Get, "/?" + query, isFile) == SendHtml(IndexPage, 200)
  {
    UrlPathOfPlain("/");
    assert "/?" + query == "/" + ['?'] + query;
    UrlPathIgnoresQuery("/", '?', query);
  }

  /** The routing asymmetry between the two methods: with a query string,
      "/message" still renders the form for GET, but a POST to it is
      answered with the 404 page and is not accepted. */
  lemma PostWithQueryIsNotAccepted(query: string, isFile: string -> bool)
    ensures Dispatch(Get, SubmitPath + "?" + query, isFile) == SendHtml(MessagePage, 200)
    ensures Dispatch(Post, SubmitPath + "?" + query, isFile) == SendHtml(ErrorPage, 404)
  {
    UrlPathOfPlain(SubmitPath);
    UrlPathIgnoresQuery(SubmitPath, '?', query);
    assert |SubmitPath + "?" + query| > |SubmitPath|;
  }

  /** Parameters on the last segment are not part of the routed path: GET
      "/message;x" renders the form like GET "/message". */
  lemma MessageWithParams(x: string, isFile: string -> bool)
    requires forall i :: 0 <= i < |x| ==> x[i] != '/' && x[i] !in QueryOrFragment
    ensures Dispatch(Get, SubmitPath + ";" + x, isFile) == SendHtml(MessagePage, 200)
  {
    var raw := SubmitPath + ";" + x;
    BeforeWhole(raw, QueryOrFragment);
    assert SegmentStart(raw) == 1 by {
      assert raw[0] == '/';
      assert forall k :: 1 <= k < |raw| ==> raw[k] != '/';
      assert raw[..1] == "/";
    }
    assert raw[1..] == "message" + [';'] + x;
    BeforeStopsAt("message", ';', x, {';'});
  }

  /** A POST to any target but exactly "/message" gets the 404 page. */
  lemma PostElsewhereIsNotFound(raw: string, isFile: string -> bool)
    requires raw != SubmitPath
    ensures Dispatch(Post, raw, isFile) == SendHtml(ErrorPage, 404)
  {
  }

  /** Any GET path other than "/" and "/message" whose stripped form is not
      an existing regular file gets the 404 page. */
  lemma UnknownGetIsNotFound(raw: string, isFile: string -> bool)
    requires UrlPath(raw) != "/" && UrlPath(raw) != SubmitPath
    requires !isFile(StaticPath(UrlPath(raw)))
    ensures Dispatch(Get, raw, isFile) == SendHtml(ErrorPage, 404)
  {
  }

  /** The path handed to the file system is the request path minus its first
      character, traversal segments included: "/../x" asks for "../x". */
  lemma NoConfinement(rest: string, isFile: string -> bool)
    requires Plain(rest)
    requires "/" + rest != "/" && "/" + rest != SubmitPath
    requires isFile(rest)
    ensures Dispatch(Get, "/" + rest, isFile) == SendStatic(rest)
  {
    assert Plain("/" + rest) by {
      assert forall i :: 1 <= i < |"/" + rest| ==> ("/" + rest)[i] == rest[i - 1];
    }
    UrlPathOfPlain("/" + rest);
  }
}
