/** The Wikipedia lookup tool: one title search, then a short summary of the first title. */
module Wikipedia {
  import opened Outcomes

  const NoResultsOpen: string := "No Wikipedia results found for '"
  const FoundOpen: string := "Wikipedia - "
  const ErrorPrefix: string := "Error searching Wikipedia: "

  /** How many titles the search asks for. */
  const ResultLimit: nat := 1
  /** How many sentences the summary asks for. */
  const SummarySentences: nat := 3

  /** A call the tool makes to the encyclopedia client. */
  datatype Request = Search(query: string, results: nat) | Summary(title: string, sentences: nat)

  /** How the encyclopedia client answers each call: a list of titles, a summary, or a raised error. */
  datatype Service = Service(
    search: (string, nat) -> Result<seq<string>>,
    summary: (string, nat) -> Result<string>)

  /** What one `forward` call returns, with the calls it made in order. */
  datatype Lookup = Lookup(text: string, requests: seq<Request>)

  function NoResults(query: string): string {
    NoResultsOpen + query + "'"
  }

  function Found(title: string, summary: string): string {
    FoundOpen + title + ":\n" + summary
  }

  /** The lookup fails when the search raises, or when it finds a title and the summary raises. */
  predicate Fails(query: string, service: Service) {
    match service.search(query, ResultLimit)
    case Err(_) => true
    case Ok(titles) => titles != [] && service.summary(titles[0], SummarySentences).Err?
  }

  /** `forward(query)`: never raises; every outcome is a text. */
  function Forward(query: string, service: Service): (r: Lookup)
    ensures r.text != []
    ensures 1 <= |r.requests| <= 2 && r.requests[0] == Search(query, ResultLimit)
    ensures |r.requests| == 2 <==>
      (service.search(query, ResultLimit).Ok? && service.search(query, ResultLimit).value != [])
    ensures |r.requests| == 2 ==>
      r.requests[1] == Summary(service.search(query, ResultLimit).value[0], SummarySentences)
  {
    var search := Search(query, ResultLimit);
    match service.search(query, ResultLimit)
    case Err(e) => Lookup(ErrorPrefix + e, [search])
    case Ok(titles) =>
      if titles == [] then Lookup(NoResults(query), [search])
      else
        var summary := Summary(titles[0], SummarySentences);
        match service.summary(titles[0], SummarySentences)
        case Err(e) => Lookup(ErrorPrefix + e, [search, summary])
        case Ok(s) => Lookup(Found(titles[0], s), [search, summary])
  }

  /** The query named in a no-results text, if the text is one. */
  function NoResultsQuery(text: string): Option<string> {
    if |text| > |NoResultsOpen| && text[..|NoResultsOpen|] == NoResultsOpen && text[|text| - 1] == '\''
    then Some(text[|NoResultsOpen|..|text| - 1])
    else None
  }

  /** The no-results text names the exact query, and the query can be read back from it. */
  lemma NoResultsNamesQuery(query: string)
    ensures NoResultsQuery(NoResults(query)) == Some(query)
  {
    var t := NoResults(query);
    assert t[..|NoResultsOpen|] == NoResultsOpen;
    assert t[|NoResultsOpen|..|t| - 1] == query;
  }

  /** An empty search result gives exactly the no-results text, and only then does that text
      come back; no summary is requested in that case. */
  lemma NoResultsIff(query: string, service: Service)
    ensures Forward(query, service).text == NoResults(query) <==> service.search(query, ResultLimit) == Ok([])
    ensures service.search(query, ResultLimit) == Ok([]) ==> Forward(query, service).requests == [Search(query, ResultLimit)]
  {
    var r := Forward(query, service);
    if r.text == NoResults(query) {
      assert r.text[0] == 'N';
    }
  }

  /** The text carries the error prefix exactly when a call raised, and then it is the prefix
      followed by the message of the call that raised, the search or the summary. */
  lemma ErrorIff(query: string, service: Service)
    ensures ErrorPrefix <= Forward(query, service).text <==> Fails(query, service)
    ensures service.search(query, ResultLimit).Err? ==>
      Forward(query, service).text == ErrorPrefix + service.search(query, ResultLimit).msg
    ensures (service.search(query, ResultLimit).Ok? && service.search(query, ResultLimit).value != []
             && service.summary(service.search(query, ResultLimit).value[0], SummarySentences).Err?) ==>
      Forward(query, service).text ==
        ErrorPrefix + service.summary(service.search(query, ResultLimit).value[0], SummarySentences).msg
  {
    var r := Forward(query, service);
    if ErrorPrefix <= r.text {
      assert r.text[0] == 'E';
    }
    if !Fails(query, service) {
      var titles := service.search(query, ResultLimit).value;
      if titles == [] {
        assert r.text[0] == 'N';
      } else {
        assert r.text[0] == 'W';
      }
    }
  }

  /** A found title text is the title, a colon and a line break, then the summary of that title. */
  lemma FoundText(query: string, service: Service, titles: seq<string>, summary: string)
    requires service.search(query, ResultLimit) == Ok(titles) && titles != []
    requires service.summary(titles[0], SummarySentences) == Ok(summary)
    ensures Forward(query, service).text == "Wikipedia - " + titles[0] + ":\n" + summary
  {
  }

  /** Only the first title is ever used: two searches that agree on it give the same outcome. */
  lemma OnlyFirstTitleUsed(query: string, a: Service, b: Service, x: seq<string>, y: seq<string>)
    requires a.search(query, ResultLimit) == Ok(x) && b.search(query, ResultLimit) == Ok(y)
    requires x != [] && y != [] && x[0] == y[0]
    requires a.summary(x[0], SummarySentences) == b.summary(y[0], SummarySentences)
    ensures Forward(query, a) == Forward(query, b)
  {
  }
}
