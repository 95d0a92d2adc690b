/**
 * The reflected-XSS crawler of tools/xss/xss_test.py.
 *
 * Starting from one URL, `scan_xss` visits every page of the same host it
 * can reach through links, submits each payload through every form of each
 * page, and records the submissions whose response echoes the payload.
 *
 * The network and the HTML parser are not modelled. A `Web` gives, for each
 * URL that answers, the page's link targets and forms, and for each form
 * submission the response text; a URL it does not list, or a submission it
 * answers with `None`, is a request that raised. `urljoin` and the host part
 * of `urlparse` are the two functions of `Urls`.
 */
module XssTest {
  import opened Wrappers
  import opened Text

  const XssPayloads: seq<string> := [
    "<script>alert('XSS')</script>",
    "\"><script>alert('XSS')</script>",
    "';alert('XSS');//",
    "<img src=x onerror=alert('XSS')>",
    "<svg/onload=alert('XSS')>"
  ]

  /** An `<input>` element; only its `name` attribute is read. */
  datatype Input = Input(name: Option<string>)

  /** A `<form>` element: its `action` and `method` attributes (`verb`) and its inputs. */
  datatype Form = Form(action: Option<string>, verb: Option<string>, inputs: seq<Input>)

  /** A fetched page: the `href` of each `<a>` that has one, and its forms. */
  datatype Page = Page(hrefs: seq<string>, forms: seq<Form>)

  datatype HttpMethod = Get | Post

  /** A form submission: the data goes in the body of a POST or the query of a GET. */
  datatype Request = Request(verb: HttpMethod, url: string, data: map<string, string>)

  datatype Urls = Urls(join: (string, string) -> string, netloc: string -> string)

  datatype Web = Web(pages: map<string, Page>, respond: Request -> Option<string>)

  /** What `test_xss` returns: whether the payload came back, where the form was sent, and what was sent. */
  datatype Attempt = Attempt(vulnerable: bool, target: string, data: map<string, string>)

  /** One recorded vulnerability. */
  datatype Finding = Finding(url: string, payload: string, data: map<string, string>)

  /** `urljoin(base, ref)`: an empty side gives the other one back unchanged. */
  function Resolve(urls: Urls, base: string, ref: string): string {
    if base == "" then ref
    else if ref == "" then base
    else urls.join(base, ref)
  }

  // ---------------------------------------------------------------------
  // get_all_links and get_forms

  /** The resolved targets of `hrefs` on host `domain`. */
  function LinkSet(urls: Urls, url: string, hrefs: seq<string>, domain: string): set<string>
    decreases |hrefs|
  {
    if |hrefs| == 0 then {}
    else
      var full := Resolve(urls, url, hrefs[|hrefs| - 1]);
      LinkSet(urls, url, hrefs[..|hrefs| - 1], domain) + (if urls.netloc(full) == domain then {full} else {})
  }

  /** The same-host links of the page at `url`; none when fetching it raised. */
  function LinksOf(web: Web, urls: Urls, url: string, domain: string): set<string> {
    if url in web.pages then LinkSet(urls, url, web.pages[url].hrefs, domain) else {}
  }

  /** The forms of the page at `url`; none when fetching it raised. */
  function FormsAt(web: Web, url: string): (r: seq<Form>)
    ensures url !in web.pages ==> r == []
  {
    if url in web.pages then web.pages[url].forms else []
  }

  /** A link is kept exactly when some `href` resolves to it and it lies on host `domain`. */
  lemma {:induction false} LinkSetMembers(urls: Urls, url: string, hrefs: seq<string>, domain: string, l: string)
    ensures l in LinkSet(urls, url, hrefs, domain) <==>
      urls.netloc(l) == domain && exists i :: 0 <= i < |hrefs| && Resolve(urls, url, hrefs[i]) == l
    decreases |hrefs|
  {
    if |hrefs| > 0 {
      var init := hrefs[..|hrefs| - 1];
      LinkSetMembers(urls, url, init, domain, l);
      if l in LinkSet(urls, url, init, domain) {
        var i :| 0 <= i < |init| && Resolve(urls, url, init[i]) == l;
        assert hrefs[i] == init[i];
      }
      if exists i :: 0 <= i < |hrefs| && Resolve(urls, url, hrefs[i]) == l {
        var i :| 0 <= i < |hrefs| && Resolve(urls, url, hrefs[i]) == l;
        if i < |init| {
          assert init[i] == hrefs[i];
        }
      }
    }
  }

  /** Every link `get_all_links` returns lies on the target's host. */
  lemma LinksSameDomain(web: Web, urls: Urls, url: string, domain: string, l: string)
    requires l in LinksOf(web, urls, url, domain)
    ensures urls.netloc(l) == domain
  {
    LinkSetMembers(urls, url, web.pages[url].hrefs, domain, l);
  }

  /** `get_all_links`: the same-host links of the page at `url`. */
  method GetAllLinks(web: Web, urls: Urls, url: string, domain: string) returns (links: set<string>)
    ensures links == LinksOf(web, urls, url, domain)
  {
    if url !in web.pages {
      return {};
    }
    var hrefs := web.pages[url].hrefs;
    links := {};
    for i := 0 to |hrefs|
      invariant links == LinkSet(urls, url, hrefs[..i], domain)
    {
      assert hrefs[..i + 1][..i] == hrefs[..i];
      var full := Resolve(urls, url, hrefs[i]);
      if urls.netloc(full) == domain {
        links := links + {full};
      }
    }
    assert hrefs[..|hrefs|] == hrefs;
  }

  // ---------------------------------------------------------------------
  // test_xss

  /** An input with a non-empty name. */
  predicate Named(input: Input) {
    input.name.Some? && input.name.value != ""
  }

  /** The submitted data: every named input bound to the payload. */
  function FormData(inputs: seq<Input>, payload: string): map<string, string>
    decreases |inputs|
  {
    if |inputs| == 0 then map[]
    else
      var last := inputs[|inputs| - 1];
      var data := FormData(inputs[..|inputs| - 1], payload);
      if Named(last) then data[last.name.value := payload] else data
  }

  /** The data holds exactly the names of the named inputs, each bound to the payload; unnamed inputs are skipped. */
  lemma {:induction false} FormDataContents(inputs: seq<Input>, payload: string, k: string)
    ensures k in FormData(inputs, payload) <==> exists i :: 0 <= i < |inputs| && Named(inputs[i]) && inputs[i].name.value == k
    ensures k in FormData(inputs, payload) ==> FormData(inputs, payload)[k] == payload
    decreases |inputs|
  {
    if |inputs| > 0 {
      var init := inputs[..|inputs| - 1];
      FormDataContents(init, payload, k);
      if exists i :: 0 <= i < |init| && Named(init[i]) && init[i].name.value == k {
        var i :| 0 <= i < |init| && Named(init[i]) && init[i].name.value == k;
        assert inputs[i] == init[i];
      }
      if exists i :: 0 <= i < |inputs| && Named(inputs[i]) && inputs[i].name.value == k {
        var i :| 0 <= i < |inputs| && Named(inputs[i]) && inputs[i].name.value == k;
        if i < |init| {
          assert init[i] == inputs[i];
        }
      }
    }
  }

  /** The request method: the `method` attribute, `get` when absent, compared lower-cased with `post`. */
  function MethodOf(form: Form): HttpMethod {
    if Lower(form.verb.GetOr("get")) == "post" then Post else Get
  }

  /**
   * A form without a method is a GET; one with a method is posted exactly when
   * the method lower-cases to `post`, so the letter case of the attribute never
   * changes the choice.
   */
  lemma MethodChoice(action: Option<string>, verb: string, inputs: seq<Input>)
    ensures MethodOf(Form(action, None, inputs)) == Get
    ensures MethodOf(Form(action, Some(verb), inputs)) == Post <==> Lower(verb) == "post"
    ensures MethodOf(Form(action, Some(verb), inputs)) == MethodOf(Form(action, Some(Lower(verb)), inputs))
  {
    assert Lower("get") == "get";
    LowerIdempotent(verb);
  }

  /** The result of submitting `payload` through `form` on the page at `url`. */
  function TryXss(web: Web, urls: Urls, url: string, form: Form, payload: string): Attempt {
    var target := Resolve(urls, url, form.action.GetOr(""));
    var data := FormData(form.inputs, payload);
    var response := web.respond(Request(MethodOf(form), target, data));
    Attempt(response.Some? && Contains(response.value, payload), target, data)
  }

  /** A response that holds the payload verbatim, wherever it sits, marks the form vulnerable. */
  lemma ReflectionDetected(web: Web, urls: Urls, url: string, form: Form, payload: string, before: string, after: string)
    requires
      var a := TryXss(web, urls, url, form, payload);
      web.respond(Request(MethodOf(form), a.target, a.data)) == Some(before + payload + after)
    ensures TryXss(web, urls, url, form, payload).vulnerable
  {
    ContainsWithin(before, payload, after);
  }

  /**
   * A form is reported exactly when the submission got a response that holds
   * the payload verbatim somewhere: text, then the payload, then more text.
   */
  lemma ReflectionExact(web: Web, urls: Urls, url: string, form: Form, payload: string)
    ensures
      var a := TryXss(web, urls, url, form, payload);
      var response := web.respond(Request(MethodOf(form), a.target, a.data));
      a.vulnerable <==> response.Some? && exists before, after :: response.value == before + payload + after
  {
    var a := TryXss(web, urls, url, form, payload);
    var response := web.respond(Request(MethodOf(form), a.target, a.data));
    if response.Some? {
      ContainsExactly(response.value, payload);
    }
  }

  /** A submission that raised is never reported. */
  lemma RequestErrorNotVulnerable(web: Web, urls: Urls, url: string, form: Form, payload: string)
    requires
      var a := TryXss(web, urls, url, form, payload);
      web.respond(Request(MethodOf(form), a.target, a.data)).None?
    ensures !TryXss(web, urls, url, form, payload).vulnerable
  {
  }

  /**
   * `test_xss`: builds the data from the form's named inputs, sends it by the
   * form's method to the resolved action, and reports whether the response
   * holds the payload.
   */
  method TestXss(web: Web, urls: Urls, url: string, form: Form, payload: string)
      returns (vulnerable: bool, target: string, data: map<string, string>)
    ensures Attempt(vulnerable, target, data) == TryXss(web, urls, url, form, payload)
    ensures forall k :: k in data ==> data[k] == payload
  {
    target := Resolve(urls, url, form.action.GetOr(""));
    var verb := Lower(form.verb.GetOr("get"));
    data := map[];
    for i := 0 to |form.inputs|
      invariant data == FormData(form.inputs[..i], payload)
    {
      assert form.inputs[..i + 1][..i] == form.inputs[..i];
      var input := form.inputs[i];
      if input.name.Some? && input.name.value != "" {
        data := data[input.name.value := payload];
      }
    }
    assert form.inputs[..|form.inputs|] == form.inputs;
    forall k | k in data ensures data[k] == payload {
      FormDataContents(form.inputs, payload, k);
    }
    var response := web.respond(Request(if verb == "post" then Post else Get, target, data));
    vulnerable := response.Some? && Contains(response.value, payload);
  }

  // ---------------------------------------------------------------------
  // The forms of one page

  function FindingOf(a: Attempt, payload: string): Finding {
    Finding(a.target, payload, a.data)
  }

  /** The findings of one form, one per payload of `payloads` that comes back, in payload order. */
  function FormFindings(web: Web, urls: Urls, url: string, form: Form, payloads: seq<string>): seq<Finding>
    decreases |payloads|
  {
    if |payloads| == 0 then []
    else
      var p := payloads[|payloads| - 1];
      var a := TryXss(web, urls, url, form, p);
      FormFindings(web, urls, url, form, payloads[..|payloads| - 1]) + (if a.vulnerable then [FindingOf(a, p)] else [])
  }

  /** The findings of the forms of one page, form after form. */
  function PageFindings(web: Web, urls: Urls, url: string, forms: seq<Form>): seq<Finding>
    decreases |forms|
  {
    if |forms| == 0 then []
    else
      PageFindings(web, urls, url, forms[..|forms| - 1]) + FormFindings(web, urls, url, forms[|forms| - 1], XssPayloads)
  }

  /** A form yields at most one finding per payload. */
  lemma {:induction false} FormFindingsBound(web: Web, urls: Urls, url: string, form: Form, payloads: seq<string>)
    ensures |FormFindings(web, urls, url, form, payloads)| <= |payloads|
    decreases |payloads|
  {
    if |payloads| > 0 {
      FormFindingsBound(web, urls, url, form, payloads[..|payloads| - 1]);
    }
  }

  /** A page yields at most five findings per form. */
  lemma {:induction false} PageFindingsBound(web: Web, urls: Urls, url: string, forms: seq<Form>)
    ensures |PageFindings(web, urls, url, forms)| <= |forms| * |XssPayloads|
    decreases |forms|
  {
    if |forms| > 0 {
      PageFindingsBound(web, urls, url, forms[..|forms| - 1]);
      FormFindingsBound(web, urls, url, forms[|forms| - 1], XssPayloads);
    }
  }

  /** A form's findings are exactly the payloads that come back, each recorded with its target and data. */
  lemma {:induction false} FormFindingsMembers(web: Web, urls: Urls, url: string, form: Form, payloads: seq<string>, f: Finding)
    ensures f in FormFindings(web, urls, url, form, payloads) <==>
      exists i :: 0 <= i < |payloads| && TryXss(web, urls, url, form, payloads[i]).vulnerable &&
        f == FindingOf(TryXss(web, urls, url, form, payloads[i]), payloads[i])
    decreases |payloads|
  {
    if |payloads| > 0 {
      var init := payloads[..|payloads| - 1];
      FormFindingsMembers(web, urls, url, form, init, f);
      if exists i :: 0 <= i < |init| && TryXss(web, urls, url, form, init[i]).vulnerable &&
          f == FindingOf(TryXss(web, urls, url, form, init[i]), init[i]) {
        var i :| 0 <= i < |init| && TryXss(web, urls, url, form, init[i]).vulnerable &&
          f == FindingOf(TryXss(web, urls, url, form, init[i]), init[i]);
        assert payloads[i] == init[i];
      }
      if exists i :: 0 <= i < |payloads| && TryXss(web, urls, url, form, payloads[i]).vulnerable &&
          f == FindingOf(TryXss(web, urls, url, form, payloads[i]), payloads[i]) {
        var i :| 0 <= i < |payloads| && TryXss(web, urls, url, form, payloads[i]).vulnerable &&
          f == FindingOf(TryXss(web, urls, url, form, payloads[i]), payloads[i]);
        if i < |init| {
          assert init[i] == payloads[i];
        }
      }
    }
  }

  /** The loops over the forms of one page and over the payloads: one finding per submission that comes back. */
  method TestForms(web: Web, urls: Urls, url: string, forms: seq<Form>) returns (found: seq<Finding>)
    ensures found == PageFindings(web, urls, url, forms)
  {
    found := [];
    for j := 0 to |forms|
      invariant found == PageFindings(web, urls, url, forms[..j])
    {
      assert forms[..j + 1][..j] == forms[..j];
      ghost var before := found;
      for k := 0 to |XssPayloads|
        invariant found == before + FormFindings(web, urls, url, forms[j], XssPayloads[..k])
      {
        assert XssPayloads[..k + 1][..k] == XssPayloads[..k];
        var vulnerable, target, data := TestXss(web, urls, url, forms[j], XssPayloads[k]);
        if vulnerable {
          found := found + [Finding(target, XssPayloads[k], data)];
        }
      }
      assert XssPayloads[..|XssPayloads|] == XssPayloads;
    }
    assert forms[..|forms|] == forms;
  }

  /** A recorded finding carries one of the five payloads, and its data binds every name to that payload. */
  predicate WellFormed(f: Finding) {
    f.payload in XssPayloads && forall k :: k in f.data ==> f.data[k] == f.payload
  }

  lemma {:induction false} FormFindingsWellFormed(web: Web, urls: Urls, url: string, form: Form, payloads: seq<string>)
    requires forall i :: 0 <= i < |payloads| ==> payloads[i] in XssPayloads
    ensures forall i :: 0 <= i < |FormFindings(web, urls, url, form, payloads)| ==>
      WellFormed(FormFindings(web, urls, url, form, payloads)[i])
    decreases |payloads|
  {
    if |payloads| > 0 {
      var p := payloads[|payloads| - 1];
      FormFindingsWellFormed(web, urls, url, form, payloads[..|payloads| - 1]);
      forall k | k in FormData(form.inputs, p) ensures FormData(form.inputs, p)[k] == p {
        FormDataContents(form.inputs, p, k);
      }
    }
  }

  lemma {:induction false} PageFindingsWellFormed(web: Web, urls: Urls, url: string, forms: seq<Form>)
    ensures forall i :: 0 <= i < |PageFindings(web, urls, url, forms)| ==> WellFormed(PageFindings(web, urls, url, forms)[i])
    decreases |forms|
  {
    if |forms| > 0 {
      PageFindingsWellFormed(web, urls, url, forms[..|forms| - 1]);
      FormFindingsWellFormed(web, urls, url, forms[|forms| - 1], XssPayloads);
    }
  }

  // ---------------------------------------------------------------------
  // scan_xss

  /** The findings of the pages at `processed`, page after page. */
  function AllFindings(web: Web, urls: Urls, processed: seq<string>): seq<Finding>
    decreases |processed|
  {
    if |processed| == 0 then []
    else
      var u := processed[|processed| - 1];
      AllFindings(web, urls, processed[..|processed| - 1]) + PageFindings(web, urls, u, FormsAt(web, u))
  }

  /** Every finding of a crawl carries one of the five payloads, bound to every submitted name. */
  lemma {:induction false} AllFindingsWellFormed(web: Web, urls: Urls, processed: seq<string>)
    ensures forall i :: 0 <= i < |AllFindings(web, urls, processed)| ==> WellFormed(AllFindings(web, urls, processed)[i])
    decreases |processed|
  {
    if |processed| > 0 {
      var u := processed[|processed| - 1];
      AllFindingsWellFormed(web, urls, processed[..|processed| - 1]);
      PageFindingsWellFormed(web, urls, u, FormsAt(web, u));
    }
  }

  /** Every URL the crawl can meet: the start and the same-host links of the pages that answer. */
  ghost function Candidates(web: Web, urls: Urls, start: string, domain: string): set<string> {
    {start} + (set u, l | u in web.pages && l in LinksOf(web, urls, u, domain) :: l)
  }

  /** The crawl's variables: the visited set, the waiting set, the visiting order and the findings so far. */
  datatype Crawl = Crawl(visited: set<string>, toVisit: set<string>, processed: seq<string>, found: seq<Finding>)

  /** `visited` holds exactly the URLs of `processed`, which holds each once. */
  ghost predicate Registered(c: Crawl) {
    (forall u :: u in c.visited <==> u in c.processed) &&
    (forall i, j :: 0 <= i < j < |c.processed| ==> c.processed[i] != c.processed[j])
  }

  /** Every visited or waiting URL is one the crawl can meet, and the start is one of them. */
  ghost predicate WithinReach(web: Web, urls: Urls, start: string, c: Crawl) {
    var universe := Candidates(web, urls, start, urls.netloc(start));
    c.visited <= universe && c.toVisit <= universe && start in c.visited + c.toVisit
  }

  /** Every visited or waiting URL other than the start lies on the start's host. */
  ghost predicate OnHost(urls: Urls, start: string, c: Crawl) {
    forall u :: u in c.visited + c.toVisit ==> u == start || urls.netloc(u) == urls.netloc(start)
  }

  /** The same-host links of every visited page are visited or waiting. */
  ghost predicate Covered(web: Web, urls: Urls, start: string, c: Crawl) {
    forall u :: u in c.visited ==> LinksOf(web, urls, u, urls.netloc(start)) <= c.visited + c.toVisit
  }

  /**
   * The crawl only meets what it discovers: it waits on the start alone until
   * it has visited a page, visits the start first, and every other visited or
   * waiting URL is a same-host link of a page visited before it.
   */
  ghost predicate Discovered(web: Web, urls: Urls, start: string, c: Crawl) {
    var domain := urls.netloc(start);
    (|c.processed| == 0 ==> c.toVisit == {start}) &&
    (|c.processed| > 0 ==>
      c.processed[0] == start &&
      forall u :: u in c.toVisit ==>
        exists j :: 0 <= j < |c.processed| && u in LinksOf(web, urls, c.processed[j], domain)) &&
    (forall i :: 0 < i < |c.processed| ==>
      exists j :: 0 <= j < i && c.processed[i] in LinksOf(web, urls, c.processed[j], domain))
  }

  /** What holds of the crawl between two rounds of the loop. */
  ghost predicate CrawlInvariant(web: Web, urls: Urls, start: string, c: Crawl) {
    Registered(c) && WithinReach(web, urls, start, c) && OnHost(urls, start, c) &&
    Covered(web, urls, start, c) && Discovered(web, urls, start, c) &&
    c.found == AllFindings(web, urls, c.processed)
  }

  /** One round that visits `current`: it is marked visited, its findings recorded and its unvisited links queued. */
  function Visit(c: Crawl, current: string, found: seq<Finding>, links: set<string>): Crawl {
    var visited := c.visited + {current};
    Crawl(visited, c.toVisit - {current} + (links - visited), c.processed + [current], c.found + found)
  }

  lemma CrawlStarts(web: Web, urls: Urls, start: string)
    ensures CrawlInvariant(web, urls, start, Crawl({}, {start}, [], []))
  {
  }

  /** Taking an already visited URL off the waiting set keeps the invariant. */
  lemma SkipStep(web: Web, urls: Urls, start: string, c: Crawl, current: string)
    requires CrawlInvariant(web, urls, start, c)
    requires current in c.toVisit && current in c.visited
    ensures CrawlInvariant(web, urls, start, Crawl(c.visited, c.toVisit - {current}, c.processed, c.found))
  {
  }

  lemma VisitRegistered(c: Crawl, current: string, found: seq<Finding>, links: set<string>)
    requires Registered(c) && current !in c.visited
    ensures Registered(Visit(c, current, found, links))
  {
    var processed := c.processed + [current];
    forall i, j | 0 <= i < j < |processed| ensures processed[i] != processed[j] {
      assert processed[i] == c.processed[i];
      if j < |c.processed| {
        assert processed[j] == c.processed[j];
      } else {
        assert c.processed[i] in c.visited;
      }
    }
  }

  lemma VisitWithinReach(web: Web, urls: Urls, start: string, c: Crawl, current: string, found: seq<Finding>, links: set<string>)
    requires WithinReach(web, urls, start, c) && current in c.toVisit
    requires links == LinksOf(web, urls, current, urls.netloc(start))
    ensures WithinReach(web, urls, start, Visit(c, current, found, links))
  {
    var universe := Candidates(web, urls, start, urls.netloc(start));
    forall l | l in links ensures l in universe {
    }
  }

  lemma VisitOnHost(web: Web, urls: Urls, start: string, c: Crawl, current: string, found: seq<Finding>, links: set<string>)
    requires OnHost(urls, start, c) && current in c.toVisit
    requires links == LinksOf(web, urls, current, urls.netloc(start))
    ensures OnHost(urls, start, Visit(c, current, found, links))
  {
    forall l | l in links ensures urls.netloc(l) == urls.netloc(start) {
      LinksSameDomain(web, urls, current, urls.netloc(start), l);
    }
  }

  lemma VisitCovered(web: Web, urls: Urls, start: string, c: Crawl, current: string, found: seq<Finding>, links: set<string>)
    requires Covered(web, urls, start, c)
    requires links == LinksOf(web, urls, current, urls.netloc(start))
    ensures Covered(web, urls, start, Visit(c, current, found, links))
  {
  }

  lemma VisitDiscovered(web: Web, urls: Urls, start: string, c: Crawl, current: string, found: seq<Finding>, links: set<string>)
    requires Discovered(web, urls, start, c) && current in c.toVisit
    requires links == LinksOf(web, urls, current, urls.netloc(start))
    ensures Discovered(web, urls, start, Visit(c, current, found, links))
  {
    var domain := urls.netloc(start);
    var next := Visit(c, current, found, links);
    var n := |c.processed|;
    assert next.processed[n] == current;
    forall u | u in next.toVisit
      ensures exists j :: 0 <= j < |next.processed| && u in LinksOf(web, urls, next.processed[j], domain)
    {
      if u in links {
        assert u in LinksOf(web, urls, next.processed[n], domain);
      } else {
        assert n > 0 && u in c.toVisit;
        var j :| 0 <= j < n && u in LinksOf(web, urls, c.processed[j], domain);
        assert next.processed[j] == c.processed[j];
      }
    }
    forall i | 0 < i < |next.processed|
      ensures exists j :: 0 <= j < i && next.processed[i] in LinksOf(web, urls, next.processed[j], domain)
    {
      if i < n {
        var j :| 0 <= j < i && c.processed[i] in LinksOf(web, urls, c.processed[j], domain);
        assert next.processed[j] == c.processed[j] && next.processed[i] == c.processed[i];
      } else {
        var j :| 0 <= j < n && current in LinksOf(web, urls, c.processed[j], domain);
        assert next.processed[j] == c.processed[j];
      }
    }
  }

  /** Visiting a new URL keeps the invariant and brings the crawl closer to having visited everything it can meet. */
  lemma VisitStep(web: Web, urls: Urls, start: string, c: Crawl, current: string, found: seq<Finding>, links: set<string>)
    requires CrawlInvariant(web, urls, start, c)
    requires current in c.toVisit && current !in c.visited
    requires found == PageFindings(web, urls, current, FormsAt(web, current))
    requires links == LinksOf(web, urls, current, urls.netloc(start))
    ensures CrawlInvariant(web, urls, start, Visit(c, current, found, links))
    ensures
      var universe := Candidates(web, urls, start, urls.netloc(start));
      |universe - (c.visited + {current})| < |universe - c.visited|
  {
    VisitRegistered(c, current, found, links);
    VisitWithinReach(web, urls, start, c, current, found, links);
    VisitOnHost(web, urls, start, c, current, found, links);
    VisitCovered(web, urls, start, c, current, found, links);
    VisitDiscovered(web, urls, start, c, current, found, links);
    var processed := c.processed + [current];
    assert processed[..|processed| - 1] == c.processed;
    var universe := Candidates(web, urls, start, urls.netloc(start));
    assert universe - (c.visited + {current}) < universe - c.visited by {
      assert current in universe - c.visited;
    }
  }

  /**
   * `scan_xss`. `processed` lists the pages in the order the crawl visits
   * them (the order `set.pop` happens to give): each at most once, the start
   * first, every other one a same-host link of a page visited before it, and
   * every same-host link of a visited page visited too. The findings are those
   * of these pages, in this order.
   */
  method ScanXss(web: Web, urls: Urls, start: string) returns (vulnerabilities: seq<Finding>, ghost processed: seq<string>)
    ensures vulnerabilities == AllFindings(web, urls, processed)
    ensures forall i :: 0 <= i < |vulnerabilities| ==> WellFormed(vulnerabilities[i])
    ensures forall i, j :: 0 <= i < j < |processed| ==> processed[i] != processed[j]
    ensures |processed| > 0 && processed[0] == start
    ensures forall i :: 0 < i < |processed| ==>
      exists j :: 0 <= j < i && processed[i] in LinksOf(web, urls, processed[j], urls.netloc(start))
    ensures forall u :: u in processed ==> u == start || urls.netloc(u) == urls.netloc(start)
    ensures forall u, l :: u in processed && l in LinksOf(web, urls, u, urls.netloc(start)) ==> l in processed
  {
    var domain := urls.netloc(start);
    var visited: set<string> := {};
    var toVisit: set<string> := {start};
    vulnerabilities := [];
    processed := [];
    ghost var universe := Candidates(web, urls, start, domain);
    CrawlStarts(web, urls, start);
    while toVisit != {}
      invariant CrawlInvariant(web, urls, start, Crawl(visited, toVisit, processed, vulnerabilities))
      decreases |universe - visited|, |toVisit|
    {
      var current :| current in toVisit;
      if current in visited {
        SkipStep(web, urls, start, Crawl(visited, toVisit, processed, vulnerabilities), current);
        toVisit := toVisit - {current};
      } else {
        var found := TestForms(web, urls, current, FormsAt(web, current));
        var links := GetAllLinks(web, urls, current, domain);
        VisitStep(web, urls, start, Crawl(visited, toVisit, processed, vulnerabilities), current, found, links);
        toVisit := toVisit - {current};
        visited := visited + {current};
        processed := processed + [current];
        vulnerabilities := vulnerabilities + found;
        toVisit := toVisit + (links - visited);
      }
    }
    AllFindingsWellFormed(web, urls, processed);
  }

  // ---------------------------------------------------------------------
  // report_vulnerabilities

  const NoXssMessage := "No XSS vulnerabilities found."

  /** Three lines per finding; the data is shown by `render`, Python's rendering of a dict. */
  function Details(vulnerabilities: seq<Finding>, render: map<string, string> -> string): (lines: seq<string>)
    ensures |lines| == 3 * |vulnerabilities|
  {
    if |vulnerabilities| == 0 then []
    else
      var v := vulnerabilities[0];
      ["\nURL: " + v.url, "Payload: " + v.payload, "Data Sent: " + render(v.data)] + Details(vulnerabilities[1..], render)
  }

  /** The lines `report_vulnerabilities` prints. */
  function Report(vulnerabilities: seq<Finding>, render: map<string, string> -> string): (lines: seq<string>)
    ensures |lines| > 0
    ensures lines[0] == NoXssMessage <==> |vulnerabilities| == 0
    ensures |vulnerabilities| == 0 ==> lines == [NoXssMessage]
    ensures |vulnerabilities| > 0 ==> |lines| == 1 + 3 * |vulnerabilities|
  {
    if |vulnerabilities| == 0 then [NoXssMessage]
    else
      var header := "\nFound " + IntToString(|vulnerabilities|) + " potential XSS vulnerabilities:";
      assert header[0] != NoXssMessage[0];
      [header] + Details(vulnerabilities, render)
  }

  /** Finding `i` is reported on lines 3i+1 to 3i+3 with its URL, payload and data. */
  lemma {:induction false} DetailsLines(vulnerabilities: seq<Finding>, render: map<string, string> -> string, i: nat)
    requires i < |vulnerabilities|
    ensures Details(vulnerabilities, render)[3 * i] == "\nURL: " + vulnerabilities[i].url
    ensures Details(vulnerabilities, render)[3 * i + 1] == "Payload: " + vulnerabilities[i].payload
    ensures Details(vulnerabilities, render)[3 * i + 2] == "Data Sent: " + render(vulnerabilities[i].data)
    decreases i
  {
    if i > 0 {
      DetailsLines(vulnerabilities[1..], render, i - 1);
      assert vulnerabilities[1..][i - 1] == vulnerabilities[i];
    }
  }
}
