/**
 * The link checker (src/cmd/lint.rs): every cached preview URL is probed with a HEAD
 * request, its HTTP status is classified, and the URLs that are not normal are grouped
 * by condition. The lint succeeds when that grouping is empty.
 */
module Lint {
  import opened Wrappers

  type Error = string

  /** An HTTP status code as the HTTP client represents it: three digits, 100 to 999. */
  type StatusCode = x: int | 100 <= x <= 999 witness 200

  /** `UrlCondition`. */
  datatype UrlCondition = Normal | NotFound | Redirected | ServerError

  /** `StatusCode::is_redirection`: the 3xx class (section 15.4 of RFC 9110). */
  predicate IsRedirection(status: StatusCode) {
    300 <= status < 400
  }

  /** `StatusCode::is_server_error`: the 5xx class (section 15.6 of RFC 9110). */
  predicate IsServerError(status: StatusCode) {
    500 <= status < 600
  }

  /**
   * The classification in `check_url`: 404 (section 15.5.5 of RFC 9110) first, then the
   * redirection class, then the server-error class; everything else is normal.
   */
  function Classify(status: StatusCode): (c: UrlCondition)
    ensures c == NotFound <==> status == 404
    ensures c == Redirected <==> status / 100 == 3
    ensures c == ServerError <==> status / 100 == 5
    ensures c == Normal <==> status != 404 && status / 100 != 3 && status / 100 != 5
  {
    if status == 404 then NotFound
    else if IsRedirection(status) then Redirected
    else if IsServerError(status) then ServerError
    else Normal
  }

  /**
   * `check_url`: `head` stands for the HEAD request, which yields the response status or
   * an error (an unparsable URL, a connection failure).
   */
  function CheckUrl(head: string -> Result<StatusCode, Error>, url: string): (r: Result<(string, UrlCondition), Error>)
    ensures head(url).Ok? ==> r == Ok((url, Classify(head(url).value)))
    ensures head(url).Err? ==> r == Err(head(url).error)
  {
    match head(url)
    case Ok(status) => Ok((url, Classify(status)))
    case Err(e) => Err(e)
  }

  /** The URLs of `results` that received condition `c`, in input order. */
  function UrlsWith(results: seq<(string, UrlCondition)>, c: UrlCondition): seq<string>
  {
    if results == [] then []
    else
      var last := results[|results| - 1];
      UrlsWith(results[..|results| - 1], c) + (if last.1 == c then [last.0] else [])
  }

  /** A URL is listed under `c` exactly when some result pairs it with `c`. */
  lemma {:induction false} UrlsWithMembership(results: seq<(string, UrlCondition)>, c: UrlCondition, url: string)
    ensures url in UrlsWith(results, c) <==> exists i :: 0 <= i < |results| && results[i] == (url, c)
  {
    if results != [] {
      var init := results[..|results| - 1];
      UrlsWithMembership(init, c, url);
      if url in UrlsWith(init, c) {
        var i :| 0 <= i < |init| && init[i] == (url, c);
        assert results[i] == (url, c);
      }
      forall i | 0 <= i < |init| ensures results[i] == init[i] { }
    }
  }

  /** Nobody is listed under `c` exactly when no result has condition `c`. */
  lemma {:induction false} UrlsWithEmpty(results: seq<(string, UrlCondition)>, c: UrlCondition)
    ensures UrlsWith(results, c) == [] <==> forall i :: 0 <= i < |results| ==> results[i].1 != c
  {
    if results != [] {
      var init := results[..|results| - 1];
      UrlsWithEmpty(init, c);
      forall i | 0 <= i < |init| ensures results[i] == init[i] { }
    }
  }

  /**
   * The `fold` of `lint_project`: a normal URL is dropped, any other URL is appended to
   * the list of its condition (`entry(condition).or_default().push(url)`).
   */
  method GroupByCondition(results: seq<(string, UrlCondition)>) returns (acc: map<UrlCondition, seq<string>>)
    ensures Normal !in acc
    ensures forall c :: c != Normal ==> (c in acc <==> UrlsWith(results, c) != [])
    ensures forall c :: c in acc ==> acc[c] == UrlsWith(results, c)
  {
    acc := map[];
    var i := 0;
    while i < |results|
      invariant 0 <= i <= |results|
      invariant Normal !in acc
      invariant forall c :: c != Normal ==> (c in acc <==> UrlsWith(results[..i], c) != [])
      invariant forall c :: c in acc ==> acc[c] == UrlsWith(results[..i], c)
    {
      var (url, condition) := results[i];
      assert results[..i + 1][..i] == results[..i];
      if condition != Normal {
        var urls := if condition in acc then acc[condition] else [];
        acc := acc[condition := urls + [url]];
      }
      i := i + 1;
    }
    assert results[..i] == results;
  }

  /**
   * `lint_project` after the URLs have been read from the preview cache: every URL is
   * checked; if any check fails, the lint fails with the error of one of them; otherwise
   * the result is whether the grouping of non-normal URLs is empty.
   */
  method LintProject(urls: seq<string>, head: string -> Result<StatusCode, Error>) returns (r: Result<bool, Error>)
    ensures r.Err? <==> exists i :: 0 <= i < |urls| && head(urls[i]).Err?
    ensures r.Err? ==> exists i :: 0 <= i < |urls| && head(urls[i]) == Err(r.error)
    ensures r.Ok? ==> (r.value <==> forall i :: 0 <= i < |urls| ==> Classify(head(urls[i]).value) == Normal)
  {
    // `try_join_all`: the first failed check makes the whole lint fail.
    var results: seq<(string, UrlCondition)> := [];
    var i := 0;
    while i < |urls|
      invariant 0 <= i <= |urls|
      invariant forall j :: 0 <= j < i ==> head(urls[j]).Ok?
      invariant |results| == i
      invariant forall j :: 0 <= j < i ==> results[j] == (urls[j], Classify(head(urls[j]).value))
    {
      var checked := CheckUrl(head, urls[i]);
      if checked.Err? {
        return Err(checked.error);
      }
      results := results + [checked.value];
      i := i + 1;
    }
    var conditions := GroupByCondition(results);
    if exists j :: 0 <= j < |urls| && Classify(head(urls[j]).value) != Normal {
      var j :| 0 <= j < |urls| && Classify(head(urls[j]).value) != Normal;
      UrlsWithMembership(results, Classify(head(urls[j]).value), urls[j]);
      assert results[j] == (urls[j], Classify(head(urls[j]).value));
    }
    if conditions != map[] {
      var c :| c in conditions;
      UrlsWithEmpty(results, c);
    }
    r := Ok(|conditions| == 0);
  }
}
