/** The student home page (`pages/student/Dashboard.jsx`): the search box that links to
    the job board, the image carousel's step, and the FAQ accordion. */
module StudentDashboard {
  import opened Text
  import opened Browser
  import opened UrlParams
  import opened JobsPage

  const JobsPath := "/student/jobs"

  /** `goToJobs`: the job board's path, followed by `?` and the params only when there are
      any. The home page's `q` is the board's `title` and its `keyword` the `position`. */
  function JobsLink(q: string, keyword: string, location: string, encode: string -> string): (link: string)
    ensures q == "" && keyword == "" && location == "" ==> link == JobsPath
    ensures q != "" || keyword != "" || location != "" ==>
      link == JobsPath + "?" + Serialize(SearchParams(q, keyword, location), encode)
  {
    var qs := Serialize(SearchParams(q, keyword, location), encode);
    SearchParamsEmpty(q, keyword, location);
    JobsPath + (if qs != "" then "?" + qs else "")
  }

  /** The job board opened by the home page's search reads back the three values typed
      into it; with all three empty the query string is empty and the board's own
      defaults (empty fields) apply. */
  lemma LinkSeedsJobBoard(q: string, keyword: string, location: string, encode: string -> string, decode: string -> string)
    requires QueryCodec(encode, decode)
    ensures var link := JobsLink(q, keyword, location, encode);
      var search := link[|JobsPath|..];
      && StartsWith(link, JobsPath)
      && (search == "" <==> q == "" && keyword == "" && location == "")
      && (search != "" ==>
            && GetOr(Parse(search, decode), TitleKey) == q
            && GetOr(Parse(search, decode), PositionKey) == keyword
            && GetOr(Parse(search, decode), LocationKey) == location)
  {
    var qs := Serialize(SearchParams(q, keyword, location), encode);
    var link := JobsLink(q, keyword, location, encode);
    assert link[..|JobsPath|] == JobsPath;
    if qs != "" {
      assert link[|JobsPath|..] == "?" + qs;
      SearchParamsRoundTrip(q, keyword, location, encode, decode);
    } else {
      assert link == JobsPath;
    }
  }

  /** The interval step of the carousel; no interval is set up for an empty carousel. */
  function CarouselStep(i: nat, len: nat): (r: nat)
    requires len > 0
    ensures r < len
    ensures i + 1 < len ==> r == i + 1
    ensures i + 1 == len ==> r == 0
  {
    (i + 1) % len
  }

  /** The index after `k` steps from `i`. */
  function CarouselAfter(i: nat, k: nat, len: nat): (r: nat)
    requires len > 0
    ensures r < len
  {
    if k == 0 then i % len else CarouselStep(CarouselAfter(i, k - 1, len), len)
  }

  /** Stepping is counting modulo the number of images: from `i`, `k` steps reach `(i + k) % len`. */
  lemma {:induction false} CarouselCycles(i: nat, k: nat, len: nat)
    requires len > 0
    ensures CarouselAfter(i, k, len) == (i + k) % len
  {
    if k > 0 {
      CarouselCycles(i, k - 1, len);
      var j := (i + k - 1) % len;
      assert CarouselAfter(i, k, len) == (j + 1) % len;
      ModStep(i + k - 1, len);
    }
  }

  /** `((n % len) + 1) % len == (n + 1) % len`. */
  lemma ModStep(n: nat, len: nat)
    requires len > 0
    ensures ((n % len) + 1) % len == (n + 1) % len
  {
    var q, m := n / len, n % len;
    assert n == q * len + m;
    if m + 1 < len {
      ModUnique(n + 1, len, q, m + 1);
      ModUnique(m + 1, len, 0, m + 1);
    } else {
      assert (q + 1) * len == q * len + len;
      ModUnique(n + 1, len, q + 1, 0);
      ModUnique(len, len, 1, 0);
    }
  }

  /** The remainder is the unique `r` of any decomposition `a == q * len + r`. */
  lemma ModUnique(a: int, len: int, q: int, r: int)
    requires len > 0 && 0 <= r < len && a == q * len + r
    ensures a % len == r
  {
    var q0, r0 := a / len, a % len;
    assert a == q0 * len + r0;
    assert (q - q0) * len == q * len - q0 * len;
    assert (q0 - q) * len == q0 * len - q * len;
    if q > q0 {
      MulAtLeast(q - q0, len);
    } else if q < q0 {
      MulAtLeast(q0 - q, len);
    }
  }

  lemma {:induction false} MulAtLeast(d: int, len: int)
    requires d >= 1 && len > 0
    ensures d * len >= len
  {
    if d > 1 {
      MulAtLeast(d - 1, len);
      assert d * len == (d - 1) * len + len;
    }
  }

  /** After a full round the carousel is back where it started. */
  lemma CarouselFullRound(i: nat, len: nat)
    requires 0 < len && i < len
    ensures CarouselAfter(i, len, len) == i
  {
    CarouselCycles(i, len, len);
    ModUnique(i + len, len, 1, i);
  }

  /** The FAQ accordion: clicking the open question closes it, clicking any other opens
      that one alone. */
  function ToggleFaq(open: Option<nat>, i: nat): (r: Option<nat>)
    ensures r == None <==> open == Some(i)
    ensures r != None ==> r == Some(i)
  {
    if open == Some(i) then None else Some(i)
  }

  /** Two clicks on the same question restore a closed accordion, and a click on another
      question moves the open item there. */
  lemma FaqClicks(i: nat, j: nat)
    ensures ToggleFaq(ToggleFaq(None, i), i) == None
    ensures i != j ==> ToggleFaq(ToggleFaq(None, i), j) == Some(j)
  {
  }
}
