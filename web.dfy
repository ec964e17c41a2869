/**
 * The collaborators every endpoint talks to, as values: the HTTP client
 * (a total function from a request to its outcome), the HTML and XML
 * parsers, the regular-expression engine, URL quoting and joining (which
 * raises on a malformed host, so it may give no result).
 * Nothing here is re-measured: the same request always has the same outcome
 * within one evaluation.
 */
module Web {
  import opened Options
  import opened Text

  datatype Verb = GET | HEAD

  /** One call of `requests.get` or `requests.head`, with its timeout in seconds. */
  datatype Request = Request(verb: Verb, url: string, timeout: nat)

  /**
   * What a call produced: a response (status, text, the URL after redirects,
   * the `Server` header if any), a `requests.Timeout`, or any other exception.
   */
  datatype Reply =
    | Reply(status: int, body: string, finalUrl: string, server: Option<string>)
    | Timeout
    | Failure

  type Net = Request -> Reply

  /** The call returned a response (of any status) instead of raising. */
  predicate Fetched(r: Reply) {
    r.Reply?
  }

  /** `response.status_code == 200`. */
  predicate IsOk(r: Reply) {
    r.Reply? && r.status == 200
  }

  /** A BeautifulSoup `find` query. */
  datatype Query =
    | Tag(name: string)                                  // soup.find(name)
    | TagWithClass(name: string, classPattern: string)   // soup.find(name, class_=re.compile(p))
    | MetaNamed(name: string)                            // soup.find('meta', attrs={'name': n})

  /** An anchor's visible text and its `href`. */
  datatype Link = Link(text: string, href: string)

  /** One search-result block: its `h3` text, its first `a[href]`'s href, its snippet text. */
  datatype Block = Block(title: Option<string>, href: Option<string>, snippet: Option<string>)

  /** A `<link>` tag of an RSS or Atom type: href (or ''), type, title. */
  datatype LinkTag = LinkTag(href: string, kind: string, title: Option<string>)

  /** What the HTML parser yields for one page. */
  datatype Page = Page(
    text: string,                      // soup.get_text()
    visibleText: string,               // soup.get_text() after script and style are removed
    markup: string,                    // str(soup)
    has: Query -> bool,                // soup.find(q) is not None
    hrefs: seq<string>,                // href of every a[href], in document order
    repoLinks: seq<Link>,              // every a.v-align-middle
    resultBlocks: seq<Block>,          // div.g, div[data-sokoban-container]
    resultLinks: seq<Link>,            // a[href^="http"]:not([href*="google.com"]), text of its h3/h2/h1 or its own
    feedLinks: seq<LinkTag>,           // link[type=application/rss+xml|application/atom+xml]
    title: Option<string>,             // text of <title>
    description: Option<string>,       // content of meta[name=description] ('' when absent)
    keywords: Option<string>,          // content of meta[name=keywords] ('' when absent)
    ogTags: seq<(string, string)>,     // (property, content) of meta[property^=og:]
    twitterTags: seq<(string, string)> // (name, content) of meta[name^=twitter:]
  )

  datatype Env = Env(
    net: Net,
    html: string -> Page,                        // BeautifulSoup(body, 'html.parser')
    xml: (string, string) -> seq<string>,        // texts of BeautifulSoup(body, 'xml').find_all(tag)
    findall: (string, string) -> seq<string>,    // re.findall(pattern, text)
    quote: string -> string,                     // requests.utils.quote
    urljoin: (string, string) -> Option<string>  // urllib.parse.urljoin; None when it raises ValueError
  )

  /** A repository listed by GitHub's search page: its stripped link text and absolute URL. */
  datatype Repo = Repo(name: string, url: string)

  function RepoOf(link: Link): Repo {
    Repo(Strip(link.text), "https://github.com" + link.href)
  }

  /** An endpoint's answer: JSON with status 200, a 400 naming the missing field, or a 500. */
  datatype Outcome<T> = Ok(value: T) | BadRequest(message: string) | ServerError(message: string)

  /** One request per candidate path, all with the same verb and timeout. */
  function Candidates(verb: Verb, base: string, paths: seq<string>, timeout: nat): (r: seq<Request>)
    ensures |r| == |paths|
    ensures forall i :: 0 <= i < |paths| ==> r[i] == Request(verb, base + paths[i], timeout)
  {
    seq(|paths|, i requires 0 <= i < |paths| => Request(verb, base + paths[i], timeout))
  }

  /** Index of the first request answered with status 200, if any. */
  function FirstOk(net: Net, reqs: seq<Request>): (r: Option<nat>)
    ensures r.Some? ==> r.value < |reqs| && IsOk(net(reqs[r.value]))
    ensures r.Some? ==> forall j :: 0 <= j < r.value ==> !IsOk(net(reqs[j]))
    ensures r.None? <==> forall j :: 0 <= j < |reqs| ==> !IsOk(net(reqs[j]))
  {
    if reqs == [] then None
    else if IsOk(net(reqs[0])) then Some(0)
    else match FirstOk(net, reqs[1..])
      case None => None
      case Some(k) => Some(k + 1)
  }

  /**
   * The probing loop the endpoints share: try the candidates in order, stop at the
   * first status 200; a failed or raising candidate is skipped.
   */
  method ProbeFirst(net: Net, reqs: seq<Request>) returns (hit: Option<nat>)
    ensures hit == FirstOk(net, reqs)
  {
    hit := None;
    var i := 0;
    while i < |reqs|
      invariant 0 <= i <= |reqs|
      invariant forall j :: 0 <= j < i ==> !IsOk(net(reqs[j]))
    {
      var reply := net(reqs[i]);
      if IsOk(reply) {
        hit := Some(i);
        break;
      }
      i := i + 1;
    }
    if hit.Some? {
      var k := FirstOk(net, reqs);
      assert k.Some? && k.value == hit.value by {
        if k.None? || k.value < hit.value {
        } else if k.value > hit.value {
        }
      }
    }
  }
}
