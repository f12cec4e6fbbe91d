/**
 `scrape_job_specifications` and `synthesize_job_specifications_with_gpt`:
 validate the URL, fetch and clean the page, and optionally ask the language
 model for a structured record. The network, the HTML parser, the language
 model and `json.loads` are parameters of the model.
 */
module Scraper {
  import opened Wrappers
  import TextCleanup

  /** A field of the record the language model returns: a string or a list of strings. */
  datatype Value = Str(s: string) | StrList(items: seq<string>)

  /** Python truthiness of a field: a non-empty string or a non-empty list. */
  predicate Truthy(v: Value) {
    match v
    case Str(s) => s != ""
    case StrList(items) => items != []
  }

  /**
   What `json.loads` produced: a JSON object (a dict from keys to fields) or
   any other JSON document (array, string, number, boolean or null).
   */
  datatype Decoded = Object(fields: map<string, Value>) | NotAnObject

  /** The `scheme` and `netloc` components of `urlparse(url)`. */
  datatype UrlParts = UrlParts(scheme: string, netloc: string)

  /**
   Outcome of fetching a page and extracting its text: the text `get_text()`
   returned, a `requests` exception, or any other exception.
   */
  datatype Fetched = Page(text: string) | RequestFailed(reason: string) | ScrapeFailed(reason: string)

  /** Outcome of the chat-completion call: the reply's content, or the exception it raised. */
  datatype Completion = Reply(content: string) | CompletionFailed(reason: string)

  /** The dict `scrape_job_specifications` returns: `{"error": ...}` or the four-key success record. */
  datatype ScrapeResult =
    | Failed(error: string)
    | Scraped(url: string, rawText: string, jobSpecifications: Option<Decoded>, success: bool)

  const InvalidUrl := "Invalid URL provided"
  const FetchErrorPrefix := "Failed to fetch webpage: "
  const ScrapeErrorPrefix := "Error scraping webpage: "
  const SynthesisErrorPrefix := "Error synthesizing job specifications: "

  /** How much of the page text the prompt carries. */
  const PromptLimit := 4000

  /** `text[:4000]` */
  function Excerpt(text: string): (r: string)
    ensures r <= text
    ensures |r| == if |text| <= PromptLimit then |text| else PromptLimit
  {
    if |text| <= PromptLimit then text else text[..PromptLimit]
  }

  /**
   `synthesize_job_specifications_with_gpt`: `client` stands for the model,
   which sees the first 4000 characters of the page text; `jsonLoads` gives
   `None` where `json.loads` raises `JSONDecodeError`.
   */
  function Synthesize(text: string, client: string -> Completion, jsonLoads: string -> Option<Decoded>): (r: Decoded)
    ensures client(Excerpt(text)).Reply? && jsonLoads(client(Excerpt(text)).content).Some? ==>
      r == jsonLoads(client(Excerpt(text)).content).value
    ensures client(Excerpt(text)).Reply? && jsonLoads(client(Excerpt(text)).content).None? ==>
      r.Object? && r.fields.Keys == {"raw_analysis"} && r.fields["raw_analysis"] == Str(client(Excerpt(text)).content)
    ensures client(Excerpt(text)).CompletionFailed? ==>
      r.Object? && r.fields.Keys == {"error"}
      && r.fields["error"] == Str(SynthesisErrorPrefix + client(Excerpt(text)).reason)
  {
    match client(Excerpt(text))
    case CompletionFailed(reason) => Object(map["error" := Str(SynthesisErrorPrefix + reason)])
    case Reply(content) =>
      match jsonLoads(content)
      case Some(decoded) => decoded
      case None => Object(map["raw_analysis" := Str(content)])
  }

  /**
   `scrape_job_specifications`: `urlparse` fails where Python's raises
   `ValueError`; `fetch` stands for the GET, the HTML parsing and `get_text`;
   `client` is `None` when no client was passed.
   */
  function ScrapeJobSpecifications(
    url: string,
    urlparse: string -> Result<UrlParts, string>,
    fetch: string -> Fetched,
    client: Option<string -> Completion>,
    jsonLoads: string -> Option<Decoded>
  ): (r: ScrapeResult)
    ensures urlparse(url).Success? && (urlparse(url).value.scheme == "" || urlparse(url).value.netloc == "") ==>
      r == Failed(InvalidUrl)
    ensures urlparse(url).Failure? ==> r == Failed(ScrapeErrorPrefix + urlparse(url).error)
    ensures urlparse(url).Success? && urlparse(url).value.scheme != "" && urlparse(url).value.netloc != "" ==>
      match fetch(url)
      case RequestFailed(reason) => r == Failed(FetchErrorPrefix + reason)
      case ScrapeFailed(reason) => r == Failed(ScrapeErrorPrefix + reason)
      case Page(_) => r.Scraped?
    ensures r.Failed? ==> r.error != ""
    ensures r.Scraped? ==>
      && urlparse(url).Success? && urlparse(url).value.scheme != "" && urlparse(url).value.netloc != ""
      && r.success && r.url == url
      && fetch(url).Page? && r.rawText == TextCleanup.CleanText(fetch(url).text)
      && (r.jobSpecifications.Some? <==> client.Some?)
    ensures r.Scraped? && client.Some? ==>
      r.jobSpecifications == Some(Synthesize(r.rawText, client.value, jsonLoads))
  {
    match urlparse(url)
    case Failure(reason) => Failed(ScrapeErrorPrefix + reason)
    case Success(parts) =>
      if parts.scheme == "" || parts.netloc == "" then Failed(InvalidUrl)
      else
        // The scheme is known to be present here, so no "https://" is ever prepended.
        var target := if parts.scheme == "" then "https://" + url else url;
        match fetch(target)
        case RequestFailed(reason) => Failed(FetchErrorPrefix + reason)
        case ScrapeFailed(reason) => Failed(ScrapeErrorPrefix + reason)
        case Page(content) =>
          var text := TextCleanup.CleanText(content);
          var specs := if client.Some? then Some(Synthesize(text, client.value, jsonLoads)) else None;
          Scraped(target, text, specs, true)
  }
}
