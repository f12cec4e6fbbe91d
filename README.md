# Job-posting scraper: a verified model

This project models the logic of `job_spec_scraper.py` from the cover-letter
generator. That file scrapes a job posting, asks a language model for a
structured record of the posting, and formats the record as the text block
that goes into the cover-letter prompt. The model covers four parts:

- **Text clean-up** (`TextCleanup`, on the Python string builtins in `PyStr`).
  The extracted page text is split into lines with `str.splitlines`, and every
  line is stripped and split on two spaces. Every phrase is then stripped, the
  empty ones are dropped, and the rest are joined with single spaces.
  `str.isspace` is modelled with Python's full set of whitespace code points,
  and `splitlines` with its full set of line boundaries (`\r\n` counts as one
  boundary).
- **Scraping** (`Scraper.ScrapeJobSpecifications`). It validates the URL's
  scheme and host, fetches the page, cleans its text and, when a client is
  given, synthesizes the record.
- **Synthesis result** (`Scraper.Synthesize`). The reply parsed as JSON is
  returned as it is. An unparsable reply becomes `{"raw_analysis": reply}`,
  and a failed call becomes `{"error": ...}`.
- **Dispatch and formatting** (`CoverLetterSpecs`). The scrape result is
  turned into one of the three error strings or into the formatted report.
  The report is built from `dict.get` with defaults and `"\n".join` of
  `- item` lines, and the concerns section is appended only when `red_flags`
  is truthy. Calling `.get` on a record that is not a dict is the
  `AttributeError` outcome.

The I/O and the foreign calls are parameters of the model:

- `urlparse` gives the `(scheme, netloc)` pair, or fails where Python raises
  `ValueError`.
- `fetch` gives the page text extracted by the HTTP GET and the HTML parser,
  or the exception raised.
- `client` is the language model. It receives the first 4000 characters of
  the cleaned text and returns the reply or the exception it raised.
- `jsonLoads` gives the decoded document, or nothing when `json.loads`
  rejects the reply.
- `repr` is Python's `repr` of a list of strings, which an f-string uses for
  a list in a scalar field.

The source's line 209 nests double quotes inside a double-quoted f-string,
which Python accepts from version 3.12 on; the model assumes Python 3.12 or
later.

The modules are `Wrappers` (Option, Result), `PyStr`, `TextCleanup`, `Scraper`
and `CoverLetterSpecs`, one file each.

Three behaviours of the code are easy to misread. The model follows the code
in each:

- A URL without a scheme is rejected. Line 24 returns `Invalid URL provided`
  when the scheme or the host is missing, so the `https://` prefixing that
  the comment on line 27 announces (lines 28-29) never runs.
  `ScrapeJobSpecifications` keeps the branch and proves that a successful
  result carries the input URL unchanged.
- A present but empty list renders an empty line under its heading. The
  placeholder bullet of lines 187-199 is the default of `dict.get`, so it is
  used only for an absent key (`RequirementsSection`).
- Without a client the record is `None` (line 56). The test on line 173
  passes on it, and line 174 calls `.get` on it, which raises
  `AttributeError`. A reply that is not JSON is kept as
  `{"raw_analysis": reply}` (lines 147-149), but the report never reads
  `raw_analysis`: it is formatted with every placeholder, and the reply's
  text is dropped (`UnparsableReplyReported`).

## Model

| member | source | states |
|---|---|---|
| PyStr.AsciiWhitespace | job_spec_scraper.py:51-52 | among ASCII characters, `str.isspace` holds exactly for the space, `\t`, `\n`, `\v`, `\f`, `\r` and the separators U+001C to U+001F |
| PyStr.IsLineBreak | job_spec_scraper.py:51 | every line boundary `str.splitlines` recognises is a character `str.isspace` accepts |
| PyStr.SplitLines | job_spec_scraper.py:51 | `str.splitlines` gives no line for the empty text, at least one for any other, and never more lines than characters |
| PyStr.Join | job_spec_scraper.py:53 | `sep.join(parts)` with an empty separator is the plain concatenation of the parts |
| PyStr.LineEndFirst | job_spec_scraper.py:51 | `str.splitlines` cuts each line at the first line boundary: the text before it holds none |
| PyStr.SplitLinesSingle | job_spec_scraper.py:51 | `str.splitlines`: no produced line contains a line boundary |
| PyStr.BreakIsSpace | job_spec_scraper.py:51 | every line boundary that `str.splitlines` removes, `\r\n` included, is whitespace |
| PyStr.SplitLinesContent | job_spec_scraper.py:51 | splitting into lines removes only whitespace: the non-whitespace characters of the lines, concatenated, are those of the input, in order |
| PyStr.StripStart | job_spec_scraper.py:51-52 | the left end of `str.strip`: every character skipped is whitespace, and it stops at the first one that is not |
| PyStr.StripEnd | job_spec_scraper.py:51-52 | the right end of `str.strip`: moving back, never past the left end, every character skipped is whitespace, and it stops after the last one that is not |
| PyStr.Strip | job_spec_scraper.py:51-52 | `str.strip` gives a contiguous slice of the input, with no whitespace at either end, and only whitespace removed on each side |
| PyStr.StripKeepsContent | job_spec_scraper.py:51-52 | stripping keeps every non-whitespace character, in order |
| PyStr.SplitDoubleSpace | job_spec_scraper.py:52 | `str.split("  ")` gives at least one piece |
| PyStr.SplitDoubleSpaceSingle | job_spec_scraper.py:52 | no piece of `str.split("  ")` contains two consecutive spaces |
| PyStr.SplitDoubleSpaceOfPiece | job_spec_scraper.py:52 | text without two consecutive spaces is its own single piece |
| CoverLetterSpecs.AnalysisErrorDescribed | job_spec_scraper.py:172-174 | a record holding only a non-empty string `error`, whatever its text, is reported as `Error analyzing job specifications: ` and that error |
| PyStr.JoinSplitDoubleSpace | job_spec_scraper.py:52 | joining the pieces of `split("  ")` with two spaces gives back the input |
| PyStr.SplitDoubleSpaceContent | job_spec_scraper.py:52 | the pieces of `split("  ")` hold all the non-whitespace characters of the input, in order |
| PyStr.SplitLinesOfJoin | job_spec_scraper.py:187 | `"\n".join` of lines without boundaries, the last one non-empty, splits back into exactly those lines |
| PyStr.SplitLinesOfBlocks | job_spec_scraper.py:177-206 | for a non-empty list of blocks none of which ends in a line boundary, the lines of the blocks joined with `"\n"`, followed by `"\n"` and any text `rest`, are the lines of each block in turn (an empty block giving one empty line) and then the lines of `rest` |
| TextCleanup.CleanText | job_spec_scraper.py:51-53 | the cleaned text has no two consecutive spaces and no line boundary, does not begin or end with whitespace, and holds the input's non-whitespace characters in the same order |
| TextCleanup.CleanTextEmptyIffBlank | job_spec_scraper.py:51-53 | the cleaned text is empty exactly when the input is all whitespace |
| TextCleanup.CleanTextFixesNormal | job_spec_scraper.py:51-53 | text that is already in clean form is left unchanged |
| TextCleanup.CleanTextIdempotent | job_spec_scraper.py:51-53 | cleaning the cleaned text returns it unchanged |
| Scraper.Excerpt | job_spec_scraper.py:88 | `text[:4000]`: a prefix of the text, exactly 4000 characters long when the text is longer and the whole text otherwise |
| Scraper.Synthesize | job_spec_scraper.py:144-152 | a parsed reply is returned as parsed; an unparsable reply gives a record whose only key is `raw_analysis`, holding the reply verbatim; a failed call gives a record whose only key is `error`, holding the prefixed message |
| Scraper.ScrapeJobSpecifications | job_spec_scraper.py:21-70 | a URL without scheme or host gives exactly `Invalid URL provided`; a parse failure, a request failure and any other failure each give their prefixed error, which is never empty; a valid URL whose page is fetched always succeeds; a success has `success` set, carries the input URL unchanged and the cleaned page text, and has a record exactly when a client was given, that record being the synthesis of the cleaned text |
| CoverLetterSpecs.ListField | job_spec_scraper.py:187-199 | `specs.get(key, [placeholder])` iterated: the placeholder alone for an absent key; a present list, even empty, item by item; a present string as characters that concatenate back to it |
| CoverLetterSpecs.Items | job_spec_scraper.py:209 | iterating a value: a list yields its items, a string yields its characters one by one, which concatenate back to it |
| CoverLetterSpecs.Report | job_spec_scraper.py:177-209 | every report opens with the line break and the `JOB POSTING ANALYSIS:` heading |
| CoverLetterSpecs.ReportLinesExact | job_spec_scraper.py:177-209 | when the URL and the values under the keys the report reads are single-line, the report's lines are the overview lines, each section's blank line, heading and lines (one `- item` per item, an empty line for an empty list, the placeholder bullet for an absent key), and the concerns section only when `red_flags` is truthy |
| CoverLetterSpecs.PlaceholderReport | job_spec_scraper.py:177-206 | the record with no keys renders `Not specified` and every section placeholder, and no concerns section |
| CoverLetterSpecs.OverviewFields | job_spec_scraper.py:177-184 | when the URL and the values the report reads are single-line, the lines of the report open with a blank line, the heading and `URL: ` and the URL; each of the five overview lines is its label followed by the string under its key, even an empty one, and by `Not specified` only when the key is absent |
| CoverLetterSpecs.RequirementsSection | job_spec_scraper.py:186-187 | when the URL and the values the report reads are single-line, the requirements section of the report's lines is its heading and the placeholder bullet for an absent key, one empty line and no placeholder for a present empty list, and one `- item` line per item for a present list |
| CoverLetterSpecs.ReportEndsWithSalary | job_spec_scraper.py:204-209 | when `red_flags` is absent or falsy, the report's last two lines are the salary heading and the salary value |
| CoverLetterSpecs.ReportEndsWithConcerns | job_spec_scraper.py:208-209 | when `red_flags` is truthy, the report ends with the concerns heading followed by one `- flag` line per flag |
| CoverLetterSpecs.ReportReadsOnlyKnownKeys | job_spec_scraper.py:177-209 | the report depends only on the thirteen keys it reads: records that agree on them render the same text |
| CoverLetterSpecs.RawAnalysisIgnored | job_spec_scraper.py:177-209 | a record holding only `raw_analysis` renders exactly as the empty record does |
| CoverLetterSpecs.Describe | job_spec_scraper.py:166-211 | a truthy scrape error gives `Error scraping job posting: ` and the error; a scrape result `{"error": ""}`, whose `job_specifications` default to `{}`, gives `Error analyzing job specifications: No specifications found`, and so does a scraped empty record; a truthy `error` in the record gives `Error analyzing job specifications: ` and that error; a missing or non-dict record raises; the report is produced exactly when the record is a non-empty dict without a truthy `error` (so `{"error": ""}` as a record is reported), and it is then the formatted record |
| CoverLetterSpecs.GetJobSpecificationsForCoverLetter | job_spec_scraper.py:155-211 | end to end: each URL and fetch failure gives its prefixed message; a fetched page without a client raises, and only a fetched page can raise; with a client, a non-dict reply raises and a reportable record gives the report of the input URL; only a fetched page with a client can give a report |
| CoverLetterSpecs.CompletionFailureReported | job_spec_scraper.py:151-174 | a failed completion ends as `Error analyzing job specifications: Error synthesizing job specifications: ` and the client's message |
| CoverLetterSpecs.UnparsableReplyReported | job_spec_scraper.py:147-211 | an unparsable reply ends as the all-placeholder report of the input URL, and the reply's text is dropped |

## Left out

- The HTTP GET, with its browser User-Agent, 10-second timeout and
  `raise_for_status` (lines 31-38), is network I/O. Only its outcome is
  modelled: the parameter `fetch` gives the page text or the exception text.
- BeautifulSoup parsing, script and style removal and `get_text`
  (lines 40-48) belong to a foreign HTML library. The model starts from the
  extracted text that `fetch` returns.
- `urlparse` is a library call. Only its `(scheme, netloc)` result and its
  `ValueError` are modelled.
- The prompt text, the chat-completion call and its parameters
  (lines 84-141) are static text and a language-model service. The model
  keeps only the 4000-character excerpt the prompt carries and the reply or
  the exception.
- `json.loads` is a parameter. A decoded document that is not an object
  becomes `NotAnObject`.
- Inside a decoded object, only string and list-of-strings values are
  modelled. Numbers, booleans, `null`, nested objects and lists of non-strings
  (rendered through `str`/`repr`) are not.
- Duplicate JSON keys, a `RecursionError` from `json.loads` and a `None`
  reply content are not modelled.
- Strings are sequences of Unicode scalar values. A Python `str` holding a
  lone surrogate (U+D800 to U+DFFF) has no counterpart in the model.
- Python's `repr` of a list is a parameter. Its quoting rules are not
  modelled.
- `main` (lines 214-373) is argument parsing, console output and a file
  write.
- `cover_letter_generator.py` is not part of this model: it is file reads,
  one language-model call and a file write.
- `motto_research.py` is not part of this model: it is an environment check
  and one language-model call.
- The truthiness of the client (`if client:`) is modelled as whether a client
  is given. A client object is always truthy.
- ReportLinesExact: stated only when the URL and the values under the
  thirteen keys the report reads hold no line boundary. A value with a line
  break in it splits into more lines; `Report` itself still models every
  record.
- PlaceholderReport: stated only for a URL without a line boundary, the
  single-line condition of ReportLinesExact. A URL with a line break in it
  splits into more lines; `Report` itself still models every URL.
- OverviewFields: stated under the same single-line condition as
  ReportLinesExact.
- RequirementsSection: stated under the same single-line condition as
  ReportLinesExact.
- ReportEndsWithSalary: stated under the same single-line condition as
  ReportLinesExact.
- ReportEndsWithConcerns: stated under the same single-line condition as
  ReportLinesExact.
