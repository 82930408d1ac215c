/** The profile-generation pipeline (services/gemini.ts): scrape the page
    through the reader service, have the model analyse it against the
    profile schema, force the provenance marker, and back-fill competitors
    through a search-grounded model call when the page named none.

    The three external calls are not performed here: what each returns is a
    value in `Services`, and every run reports, as a trace of `Call`s, which
    calls it made and with what arguments. */
module Gemini {
  import opened Wrappers
  import opened Text
  import opened Profile

  /** The reader output is cut to this many characters. */
  const MaxContentLength := 15000
  /** Content shorter than this is not worth an analysis call. */
  const MinContentLength := 100
  /** The only provenance marker a finished profile may carry. */
  const RealContent := "real_content"
  /** Appended to `warnings` when the search found a first competitor. */
  const SearchNote := " | Competitor trovati via Google Search"

  const MissingApiKeyMessage := "API Key mancante (process.env.API_KEY)."
  const ScrapeFailurePrefix := "Impossibile scrapare il sito web: "
  const ScrapeFailureSuffix := ". Verifica che l'URL sia corretto e accessibile."
  const ReaderFailurePrefix := "Jina AI scraping failed: "
  /** Written in pieces so that proofs can see which characters it has. */
  const ContentTooShortMessage :=
      "Il contenuto " + "del sito web " + "è troppo breve " + "o vuoto. " + "Verifica l'URL."
  const NoResponseMessage := "Nessuna risposta generata dall'AI."
  const CreditsMessage := "\U{26A0}\U{FE0F} Crediti insufficienti per questo modello AI. Prova con Gemini 2.5 Flash o Flash Lite (gratuiti)."
  const UnknownErrorMessage := "Errore sconosciuto durante la generazione."

  /** What the reader service gives back for a page: an HTTP response, or a
      failure of the request itself. */
  datatype ReaderReply =
    | ReaderResponse(status: nat, statusText: string, body: string)
    | ReaderUnreachable(message: string)

  /** What a model call gives back: the SDK throws, or it answers with a
      `text` that may be undefined. */
  datatype ModelReply = Threw(message: string) | Answered(text: Option<string>)

  /** The four fields `JSON.parse` finds in the search answer, each possibly
      absent. */
  datatype FoundCompetitors = FoundCompetitors(
    competitor_1_name: Option<string>, competitor_1_instagram: Option<string>,
    competitor_2_name: Option<string>, competitor_2_instagram: Option<string>)

  /** What the competitor lookup returns: four strings, empty when unknown. */
  datatype Competitors = Competitors(
    competitor_1_name: string, competitor_1_instagram: string,
    competitor_2_name: string, competitor_2_instagram: string)

  const NoCompetitors := Competitors("", "", "", "")

  /** The outside world of one run: the configured API key, the replies of
      the reader, of the analysis call and of the search call, and
      `JSON.parse` on the two model answers (a record, or a failure with its
      message). */
  datatype Services = Services(
    apiKey: string,
    reader: ReaderReply,
    analysis: ModelReply,
    parseProfile: string -> Result<BrandProfile, string>,
    search: ModelReply,
    parseCompetitors: string -> Option<FoundCompetitors>)

  /** An external call the pipeline makes, with what it sends. */
  datatype Call =
    | ReadPage(url: string)
    | Analyze(model: string, url: string, content: string)
    | Search(model: string, brand: string, sector: string)

  /** A run: the profile or the error message it ends with, and the calls
      it made, in order. */
  datatype Run = Run(outcome: Result<BrandProfile, string>, calls: seq<Call>)

  // ---------------------------------------------------------------------
  // Content fetcher
  // ---------------------------------------------------------------------

  /** `response.ok`. */
  predicate IsOkStatus(status: nat) {
    200 <= status <= 299
  }

  /** `content.slice(0, 15000)`: the first 15000 characters, or all of them. */
  function Truncate(content: string): (r: string)
    ensures |r| <= MaxContentLength && |r| <= |content|
    ensures r == content[..|r|]
    ensures |content| <= MaxContentLength ==> r == content
    ensures |content| > MaxContentLength ==> |r| == MaxContentLength
  {
    if |content| <= MaxContentLength then content else content[..MaxContentLength]
  }

  /** The message every scraping failure is rethrown with. */
  function ScrapeFailure(message: string): string {
    ScrapeFailurePrefix + message + ScrapeFailureSuffix
  }

  /** scrapeWebsite: the truncated body of a 2xx response; any other status
      and any failure of the request become one error whose message starts
      with the scraping-failure text, and, for a bad status, includes that
      status in decimal. */
  function ScrapeWebsite(reply: ReaderReply): (r: Result<string, string>)
    ensures r.Ok? <==> reply.ReaderResponse? && IsOkStatus(reply.status)
    ensures r.Ok? ==> |r.value| <= MaxContentLength && |r.value| <= |reply.body|
    ensures r.Ok? ==> r.value == reply.body[..|r.value|]
    ensures r.Ok? && |reply.body| <= MaxContentLength ==> r.value == reply.body
    ensures r.Ok? ==> r.value == Truncate(reply.body)
    ensures r.Err? ==> StartsWith(r.error, ScrapeFailurePrefix)
    ensures r.Err? && reply.ReaderResponse? ==> Contains(r.error, NatToString(reply.status))
  {
    match reply
    case ReaderUnreachable(message) =>
      Err(ScrapeFailure(message))
    case ReaderResponse(status, statusText, body) =>
      if IsOkStatus(status) then Ok(Truncate(body))
      else
        var digits := NatToString(status);
        var message := ScrapeFailure(ReaderFailurePrefix + digits + " " + statusText);
        assert message == (ScrapeFailurePrefix + ReaderFailurePrefix) + digits + (" " + statusText + ScrapeFailureSuffix);
        ContainsMiddle(ScrapeFailurePrefix + ReaderFailurePrefix, digits, " " + statusText + ScrapeFailureSuffix);
        Err(message)
  }

  // ---------------------------------------------------------------------
  // Competitor resolver
  // ---------------------------------------------------------------------

  /** The text handed to `JSON.parse` for a search answer: trimmed, with the
      fences of a markdown code block deleted when it starts with one, and
      trimmed again. */
  function FenceStripped(text: string): string {
    var t := Trim(text);
    var unfenced :=
      if StartsWith(t, "```json") then DeleteTag(DeleteTag(t, "```json"), "```")
      else if StartsWith(t, "```") then DeleteTag(t, "```")
      else t;
    Trim(unfenced)
  }

  /** findCompetitors, as a value: four empty strings when the call throws,
      answers nothing, or answers something that does not parse; otherwise
      the parsed fields, absent ones as empty strings. */
  function CompetitorLookup(reply: ModelReply, parse: string -> Option<FoundCompetitors>): Competitors {
    match reply
    case Threw(_) => NoCompetitors
    case Answered(text) =>
      if text.None? || text.value == "" then NoCompetitors
      else match parse(FenceStripped(text.value))
        case None => NoCompetitors
        case Some(found) =>
          Competitors(found.competitor_1_name.GetOr(""), found.competitor_1_instagram.GetOr(""),
                      found.competitor_2_name.GetOr(""), found.competitor_2_instagram.GetOr(""))
  }

  /** findCompetitors: never fails; it cleans the answer step by step and
      falls back to four empty strings on every failure. */
  method FindCompetitors(reply: ModelReply, parse: string -> Option<FoundCompetitors>)
    returns (found: Competitors)
    ensures found == CompetitorLookup(reply, parse)
  {
    if reply.Threw? {
      return NoCompetitors;
    }
    var text := reply.text;
    if text.None? || text.value == "" {
      return NoCompetitors;
    }
    var jsonText := Trim(text.value);
    if StartsWith(jsonText, "```json") {
      jsonText := DeleteTag(DeleteTag(jsonText, "```json"), "```");
    } else if StartsWith(jsonText, "```") {
      jsonText := DeleteTag(jsonText, "```");
    }
    var competitors := parse(Trim(jsonText));
    if competitors.None? {
      return NoCompetitors;
    }
    found := Competitors(
      competitors.value.competitor_1_name.GetOr(""), competitors.value.competitor_1_instagram.GetOr(""),
      competitors.value.competitor_2_name.GetOr(""), competitors.value.competitor_2_instagram.GetOr(""));
  }

  /** Deleting a tag from a string shorter than the tag changes nothing. */
  lemma {:induction false} DeleteTagShort(s: string, tag: string)
    requires 0 < |tag| && |s| < |tag|
    ensures DeleteTag(s, tag) == s
  {
    if s != [] {
      DeleteTagShort(s[1..], tag);
    }
  }

  /** A string without backticks reaches the parser only trimmed. */
  lemma UnfencedStripsToTrim(body: string)
    requires '`' !in body
    ensures FenceStripped(body) == Trim(body)
  {
    var t := Trim(body);
    TrimKeepsCharacters(body, '`');
    assert t == [] || t[0] != '`';
    assert |t| >= 3 ==> t[..3][0] == t[0];
    assert !StartsWith(t, "```");
    assert |t| >= 7 ==> t[..7][0] == t[0];
    assert !StartsWith(t, "```json");
    TrimIdempotent(body);
  }

  /** The closing fence goes, with nothing before it touched. */
  lemma DeleteClosingFence(x: string)
    requires '`' !in x
    ensures DeleteTag(x + "```", "```") == x
  {
    DeleteTagSkips(x, "```", "```");
    assert "```"[3..] == [];
  }

  /** The opening "```json" fence goes with its line feed. */
  lemma DeleteJsonOpening(body: string)
    requires '`' !in body
    ensures DeleteTag("```json\n" + body + "\n```", "```json") == body + "\n```"
  {
    var fenced := "```json\n" + body + "\n```";
    assert fenced[..7] == "```json";
    assert fenced[7..][0] == '\n';
    assert fenced[7..][1..] == body + "\n```";
    DeleteTagSkips(body, "\n```", "```json");
    DeleteTagShort("\n```", "```json");
  }

  /** A body wrapped in a "```json" code block is handed to the parser
      exactly as the bare body would be. */
  lemma JsonFenceStripsToBody(body: string)
    requires '`' !in body
    ensures FenceStripped("```json\n" + body + "\n```") == FenceStripped(body)
  {
    var fenced := "```json\n" + body + "\n```";
    assert fenced[0] == '`' && fenced[|fenced| - 1] == '`';
    TrimUnchanged(fenced);
    assert fenced[..7] == "```json";
    DeleteJsonOpening(body);
    assert body + "\n```" == (body + "\n") + "```";
    DeleteClosingFence(body + "\n");
    TrimDropsFinalNewline(body);
    UnfencedStripsToTrim(body);
  }

  /** The same for a plain "```" code block. */
  lemma PlainFenceStripsToBody(body: string)
    requires '`' !in body
    ensures FenceStripped("```\n" + body + "\n```") == FenceStripped(body)
  {
    var fenced := "```\n" + body + "\n```";
    assert fenced[0] == '`' && fenced[|fenced| - 1] == '`';
    TrimUnchanged(fenced);
    assert fenced[..3] == "```";
    assert !StartsWith(fenced, "```json") by { assert fenced[3] == '\n'; }
    assert fenced[3..][0] == '\n';
    assert fenced[3..][1..] == (body + "\n") + "```";
    DeleteClosingFence(body + "\n");
    TrimDropsFinalNewline(body);
    UnfencedStripsToTrim(body);
  }

  /** So a fenced search answer yields the same competitors as the bare JSON. */
  lemma FencedAnswerSameCompetitors(body: string, parse: string -> Option<FoundCompetitors>)
    requires '`' !in body && body != ""
    ensures CompetitorLookup(Answered(Some("```json\n" + body + "\n```")), parse)
         == CompetitorLookup(Answered(Some(body)), parse)
    ensures CompetitorLookup(Answered(Some("```\n" + body + "\n```")), parse)
         == CompetitorLookup(Answered(Some(body)), parse)
  {
    JsonFenceStripsToBody(body);
    SameStrippedSameLookup("```json\n" + body + "\n```", body, parse);
    PlainFenceStripsToBody(body);
    SameStrippedSameLookup("```\n" + body + "\n```", body, parse);
  }

  /** Two non-empty answers that strip to the same text give the same
      competitors. */
  lemma SameStrippedSameLookup(a: string, b: string, parse: string -> Option<FoundCompetitors>)
    requires a != "" && b != "" && FenceStripped(a) == FenceStripped(b)
    ensures CompetitorLookup(Answered(Some(a)), parse) == CompetitorLookup(Answered(Some(b)), parse)
  {
  }

  /** The lookup degrades every failure to four empty strings. */
  lemma LookupFailuresGiveNoCompetitors(reply: ModelReply, parse: string -> Option<FoundCompetitors>)
    requires || reply.Threw?
             || reply.text.None? || reply.text.value == ""
             || parse(FenceStripped(reply.text.value)).None?
    ensures CompetitorLookup(reply, parse) == NoCompetitors
  {
  }

  // ---------------------------------------------------------------------
  // Error classification
  // ---------------------------------------------------------------------

  /** The outer catch's test for an exhausted quota. */
  predicate IsQuotaMessage(message: string) {
    || Contains(message, "quota")
    || Contains(message, "RESOURCE_EXHAUSTED")
    || Contains(message, "exceeded your current quota")
  }

  /** The message the run fails with, given the message of what was thrown:
      quota exhaustion becomes the fixed credits text, an empty message the
      fixed unknown-error text, anything else is kept. */
  function ClassifyError(message: string): (r: string)
    ensures r != ""
    ensures r == message || r == CreditsMessage || r == UnknownErrorMessage
  {
    if IsQuotaMessage(message) then CreditsMessage
    else if message == "" then UnknownErrorMessage
    else message
  }

  /** A string that lacks one character of `sub` does not include `sub`. */
  lemma MissingCharacterNotContained(s: string, sub: string, c: char)
    requires c in sub && c !in s
    ensures !Contains(s, sub)
  {
  }

  /** The third test of the quota check is subsumed by the first, so the
      classification depends on "quota" and "RESOURCE_EXHAUSTED" alone. */
  lemma ClassifyErrorCases(message: string)
    ensures (Contains(message, "quota") || Contains(message, "RESOURCE_EXHAUSTED"))
            ==> ClassifyError(message) == CreditsMessage
    ensures !(Contains(message, "quota") || Contains(message, "RESOURCE_EXHAUSTED"))
            ==> ClassifyError(message) == (if message == "" then UnknownErrorMessage else message)
  {
    if Contains(message, "exceeded your current quota") {
      ContainsMiddle("exceeded your current ", "quota", "");
      assert "exceeded your current " + "quota" + "" == "exceeded your current quota";
      ContainsTransitive(message, "exceeded your current quota", "quota");
    }
  }

  /** A message with neither 'q' nor '_' passes the classification unchanged. */
  lemma PlainMessageKept(message: string)
    requires message != "" && 'q' !in message && '_' !in message
    ensures ClassifyError(message) == message
  {
    MissingCharacterNotContained(message, "quota", 'q');
    MissingCharacterNotContained(message, "RESOURCE_EXHAUSTED", '_');
    MissingCharacterNotContained(message, "exceeded your current quota", 'q');
  }

  // ---------------------------------------------------------------------
  // Post-validation of the analysed profile
  // ---------------------------------------------------------------------

  /** JavaScript truthiness of an optional string. */
  predicate Truthy(o: Option<string>) {
    o.Some? && o.value != ""
  }

  /** The provenance marker is forced, whatever the model wrote. */
  function ForceRealContent(p: BrandProfile): (r: BrandProfile)
    ensures r.data_source == Some(RealContent)
    ensures forall k :: k != DataSource ==> Get(r, k) == Get(p, k)
  {
    p.(data_source := Some(RealContent))
  }

  /** `hasCompetitors`: a first competitor name with something besides
      whitespace in it. */
  predicate HasCompetitors(p: BrandProfile) {
    p.competitor_1_name.Some? && Trim(p.competitor_1_name.value) != ""
  }

  /** The back-fill trigger. */
  predicate NeedsCompetitorSearch(p: BrandProfile) {
    !HasCompetitors(p) && Truthy(p.brand_name) && Truthy(p.settore)
  }

  /** The trigger fires exactly when the first competitor name is missing
      or all whitespace and both the brand name and the sector are
      non-empty. */
  lemma NeedsCompetitorSearchMeaning(p: BrandProfile)
    ensures NeedsCompetitorSearch(p) <==>
      && (p.competitor_1_name.None? || AllWhitespace(p.competitor_1_name.value))
      && p.brand_name.Some? && p.brand_name.value != ""
      && p.settore.Some? && p.settore.value != ""
  {
    if p.competitor_1_name.Some? {
      TrimEmptyIffWhitespace(p.competitor_1_name.value);
    }
  }

  /** The back-fill merge: the four competitor fields become the lookup's
      values, empty ones included; `warnings` gets the search note appended
      only when the lookup found a first name; nothing else changes. */
  function MergeCompetitors(p: BrandProfile, found: Competitors): (r: BrandProfile)
    ensures forall k :: !IsCompetitorKey(k) && k != Warnings ==> Get(r, k) == Get(p, k)
  {
    var merged := p.(competitor_1_name := Some(found.competitor_1_name),
                     competitor_1_instagram := Some(found.competitor_1_instagram),
                     competitor_2_name := Some(found.competitor_2_name),
                     competitor_2_instagram := Some(found.competitor_2_instagram));
    if found.competitor_1_name != "" then merged.(warnings := Some(p.warnings.GetOr("") + SearchNote))
    else merged
  }

  /** What the merge writes into the competitor fields and `warnings`. */
  lemma MergeCompetitorsWrites(p: BrandProfile, found: Competitors)
    ensures var r := MergeCompetitors(p, found);
      && Get(r, Competitor1Name) == Some(Text(found.competitor_1_name))
      && Get(r, Competitor1Instagram) == Some(Text(found.competitor_1_instagram))
      && Get(r, Competitor2Name) == Some(Text(found.competitor_2_name))
      && Get(r, Competitor2Instagram) == Some(Text(found.competitor_2_instagram))
      && (found.competitor_1_name != "" ==> r.warnings == Some(p.warnings.GetOr("") + SearchNote))
      && (found.competitor_1_name == "" ==> r.warnings == p.warnings)
  {
  }

  /** The analysis call's answer, parsed: what was thrown, the empty-answer
      error, or `JSON.parse`'s result. */
  function AnalysisResult(reply: ModelReply, parse: string -> Result<BrandProfile, string>): Result<BrandProfile, string> {
    match reply
    case Threw(message) => Err(message)
    case Answered(text) =>
      if text.None? || text.value == "" then Err(NoResponseMessage) else parse(text.value)
  }

  // ---------------------------------------------------------------------
  // The orchestration
  // ---------------------------------------------------------------------

  /** generateBrandProfile, as a value: the run for one URL and model. */
  function Generation(url: string, model: string, w: Services): Run {
    if w.apiKey == "" then Run(Err(MissingApiKeyMessage), [])
    else
      var read := [ReadPage(url)];
      match ScrapeWebsite(w.reader)
      case Err(e) => Run(Err(ClassifyError(e)), read)
      case Ok(content) =>
        if |content| < MinContentLength then Run(Err(ClassifyError(ContentTooShortMessage)), read)
        else
          var analyzed := read + [Analyze(model, url, content)];
          match AnalysisResult(w.analysis, w.parseProfile)
          case Err(e) => Run(Err(ClassifyError(e)), analyzed)
          case Ok(parsed) =>
            var fixed := ForceRealContent(parsed);
            if NeedsCompetitorSearch(fixed) then
              Run(Ok(MergeCompetitors(fixed, CompetitorLookup(w.search, w.parseCompetitors))),
                  analyzed + [Search(model, fixed.brand_name.value, fixed.settore.value)])
            else Run(Ok(fixed), analyzed)
  }

  /** generateBrandProfile: checks the key, scrapes, analyses, and then
      patches the parsed profile in place. */
  method GenerateBrandProfile(websiteUrl: string, modelName: string, services: Services)
    returns (outcome: Result<BrandProfile, string>, calls: seq<Call>)
    ensures Run(outcome, calls) == Generation(websiteUrl, modelName, services)
  {
    calls := [];
    if services.apiKey == "" {
      return Err(MissingApiKeyMessage), calls;
    }
    calls := calls + [ReadPage(websiteUrl)];
    assert calls == [ReadPage(websiteUrl)];
    var scraped := ScrapeWebsite(services.reader);
    if scraped.Err? {
      return Err(ClassifyError(scraped.error)), calls;
    }
    var websiteContent := scraped.value;
    if |websiteContent| < MinContentLength {
      return Err(ClassifyError(ContentTooShortMessage)), calls;
    }
    calls := calls + [Analyze(modelName, websiteUrl, websiteContent)];
    assert calls == [ReadPage(websiteUrl)] + [Analyze(modelName, websiteUrl, websiteContent)];
    if services.analysis.Threw? {
      return Err(ClassifyError(services.analysis.message)), calls;
    }
    var text := services.analysis.text;
    if text.None? || text.value == "" {
      return Err(ClassifyError(NoResponseMessage)), calls;
    }
    var parsed := services.parseProfile(text.value);
    if parsed.Err? {
      return Err(ClassifyError(parsed.error)), calls;
    }
    assert AnalysisResult(services.analysis, services.parseProfile) == parsed;
    var result := parsed.value;
    if result.data_source != Some(RealContent) {
      result := result.(data_source := Some(RealContent));
    }
    assert result == ForceRealContent(parsed.value);
    var hasCompetitors := result.competitor_1_name.Some? && Trim(result.competitor_1_name.value) != "";
    assert hasCompetitors == HasCompetitors(result);
    if !hasCompetitors && Truthy(result.brand_name) && Truthy(result.settore) {
      calls := calls + [Search(modelName, result.brand_name.value, result.settore.value)];
      var competitors := FindCompetitors(services.search, services.parseCompetitors);
      ghost var fixed := result;
      result := result.(competitor_1_name := Some(competitors.competitor_1_name));
      result := result.(competitor_1_instagram := Some(competitors.competitor_1_instagram));
      result := result.(competitor_2_name := Some(competitors.competitor_2_name));
      result := result.(competitor_2_instagram := Some(competitors.competitor_2_instagram));
      if competitors.competitor_1_name != "" {
        result := result.(warnings := Some(result.warnings.GetOr("") + SearchNote));
      }
      assert result == MergeCompetitors(fixed, competitors);
    }
    outcome := Ok(result);
  }

  // ---------------------------------------------------------------------
  // Properties of a run
  // ---------------------------------------------------------------------

  /** Without an API key the run fails with the missing-key message, as is,
      and makes no call at all; with one, it always reads the page first. */
  lemma MissingKeyStopsEverything(url: string, model: string, w: Services)
    ensures w.apiKey == "" ==> Generation(url, model, w) == Run(Err(MissingApiKeyMessage), [])
    ensures w.apiKey != "" ==>
      |Generation(url, model, w).calls| > 0 && Generation(url, model, w).calls[0] == ReadPage(url)
  {
  }

  /** Whatever reaches the analysis call is a prefix of the page body
      between 100 and 15000 characters long. */
  lemma AnalyzedContentBounded(url: string, model: string, w: Services)
    ensures forall c :: c in Generation(url, model, w).calls && c.Analyze? ==>
      && w.reader.ReaderResponse?
      && MinContentLength <= |c.content| <= MaxContentLength
      && c.content == w.reader.body[..|c.content|]
  {
  }

  /** A page that truncates to fewer than 100 characters fails the run with
      the too-short message before any model call. */
  lemma ShortContentStopsBeforeAnalysis(url: string, model: string, w: Services)
    requires w.apiKey != "" && w.reader.ReaderResponse? && IsOkStatus(w.reader.status)
    requires |Truncate(w.reader.body)| < MinContentLength
    ensures Generation(url, model, w) == Run(Err(ContentTooShortMessage), [ReadPage(url)])
  {
    TooShortMessageKept();
  }

  /** The too-short message survives the classification as it is. */
  lemma TooShortMessageKept()
    ensures ClassifyError(ContentTooShortMessage) == ContentTooShortMessage
  {
    NoQuotaCharacters("Il contenuto ");
    NoQuotaCharacters("del sito web ");
    NoQuotaCharacters("è troppo breve ");
    NoQuotaCharacters("o vuoto. ");
    NoQuotaCharacters("Verifica l'URL.");
    assert 'q' !in ContentTooShortMessage && '_' !in ContentTooShortMessage;
    PlainMessageKept(ContentTooShortMessage);
  }

  /** A string whose characters are all neither 'q' nor '_' lacks both. */
  lemma NoQuotaCharacters(s: string)
    requires forall i :: 0 <= i < |s| ==> s[i] != 'q' && s[i] != '_'
    ensures 'q' !in s && '_' !in s
  {
  }

  /** A reader failure fails the run with the scraping-failure message
      (unless that message speaks of a quota), before any model call. */
  lemma ReaderFailureStopsBeforeAnalysis(url: string, model: string, w: Services)
    requires w.apiKey != "" && !(w.reader.ReaderResponse? && IsOkStatus(w.reader.status))
    ensures Generation(url, model, w).calls == [ReadPage(url)]
    ensures Generation(url, model, w).outcome == Err(ClassifyError(ScrapeWebsite(w.reader).error))
  {
  }

  /** An empty answer from the analysis call fails the run with the
      no-response message. */
  lemma EmptyAnswerFails(url: string, model: string, w: Services)
    requires w.apiKey != "" && w.reader.ReaderResponse? && IsOkStatus(w.reader.status)
    requires |Truncate(w.reader.body)| >= MinContentLength
    requires w.analysis == Answered(None) || w.analysis == Answered(Some(""))
    ensures Generation(url, model, w).outcome == Err(NoResponseMessage)
    ensures |Generation(url, model, w).calls| == 2
  {
    NoResponseMessageKept();
  }

  /** The no-response message survives the classification as it is. */
  lemma NoResponseMessageKept()
    ensures ClassifyError(NoResponseMessage) == NoResponseMessage
  {
    assert 'q' !in NoResponseMessage && '_' !in NoResponseMessage by {
      NoQuotaCharacters(NoResponseMessage);
    }
    PlainMessageKept(NoResponseMessage);
  }

  /** When the analysis call throws or its answer does not parse, the run
      fails with the classified message after the page read and the analysis
      call, and searches for nothing. */
  lemma AnalysisFailureStops(url: string, model: string, w: Services)
    requires w.apiKey != "" && w.reader.ReaderResponse? && IsOkStatus(w.reader.status)
    requires |Truncate(w.reader.body)| >= MinContentLength
    requires AnalysisResult(w.analysis, w.parseProfile).Err?
    ensures Generation(url, model, w)
         == Run(Err(ClassifyError(AnalysisResult(w.analysis, w.parseProfile).error)),
                [ReadPage(url), Analyze(model, url, Truncate(w.reader.body))])
  {
  }

  /** Every profile a run returns carries the real-content marker. */
  lemma SuccessIsRealContent(url: string, model: string, w: Services)
    ensures Generation(url, model, w).outcome.Ok? ==>
      Generation(url, model, w).outcome.value.data_source == Some(RealContent)
  {
  }

  /** Once the analysis parsed, the run succeeds; it searches for
      competitors exactly when the parsed profile needs it, and otherwise
      returns the parsed profile with only the marker forced. */
  lemma SearchExactlyWhenNeeded(url: string, model: string, w: Services, parsed: BrandProfile)
    requires w.apiKey != "" && w.reader.ReaderResponse? && IsOkStatus(w.reader.status)
    requires |Truncate(w.reader.body)| >= MinContentLength
    requires AnalysisResult(w.analysis, w.parseProfile) == Ok(parsed)
    ensures var run := Generation(url, model, w);
      && run.outcome.Ok?
      && run.calls == [ReadPage(url), Analyze(model, url, Truncate(w.reader.body))]
           + (if NeedsCompetitorSearch(parsed) then [Search(model, parsed.brand_name.value, parsed.settore.value)] else [])
      && (NeedsCompetitorSearch(parsed) ==>
            && run.outcome.value == MergeCompetitors(ForceRealContent(parsed), CompetitorLookup(w.search, w.parseCompetitors)))
      && (!NeedsCompetitorSearch(parsed) ==>
            (forall k :: k != DataSource ==> Get(run.outcome.value, k) == Get(parsed, k)))
  {
    var fixed := ForceRealContent(parsed);
    assert NeedsCompetitorSearch(fixed) == NeedsCompetitorSearch(parsed);
  }

  /** A failed lookup (a thrown call, an empty answer, or one that does not
      parse) never fails the run: the profile comes back with four empty
      competitor fields and its warnings untouched. */
  lemma FailedLookupStillSucceeds(url: string, model: string, w: Services, parsed: BrandProfile)
    requires w.apiKey != "" && w.reader.ReaderResponse? && IsOkStatus(w.reader.status)
    requires |Truncate(w.reader.body)| >= MinContentLength
    requires AnalysisResult(w.analysis, w.parseProfile) == Ok(parsed)
    requires NeedsCompetitorSearch(parsed)
    requires || w.search.Threw?
             || w.search.text.None? || w.search.text.value == ""
             || w.parseCompetitors(FenceStripped(w.search.text.value)).None?
    ensures var run := Generation(url, model, w);
      && run.outcome.Ok?
      && run.outcome.value.competitor_1_name == Some("")
      && run.outcome.value.competitor_1_instagram == Some("")
      && run.outcome.value.competitor_2_name == Some("")
      && run.outcome.value.competitor_2_instagram == Some("")
      && run.outcome.value.warnings == parsed.warnings
  {
    SearchExactlyWhenNeeded(url, model, w, parsed);
    LookupFailuresGiveNoCompetitors(w.search, w.parseCompetitors);
  }

  /** The end-to-end scenario: a page of 150 characters, an analysis naming
      "Acme" in "Retail" with an empty first competitor and a fake marker,
      and a search that names two competitors. */
  const ExampleParsed := Empty.(brand_name := Some("Acme"), settore := Some("Retail"),
                                competitor_1_name := Some(""), keywords := Some(["quality", "value"]),
                                value_prop := Some("..."), pain_point_1 := Some("..."),
                                data_source := Some("fake"), scraping_quality := Some(7.0))
  const ExampleFound := FoundCompetitors(Some("Rival One"), Some("@rivalone"), Some("Rival Two"), Some("@rivaltwo"))
  const ExampleCompetitors := Competitors("Rival One", "@rivalone", "Rival Two", "@rivaltwo")

  function ExampleServices(page: string): Services {
    Services("key", ReaderResponse(200, "OK", page),
             Answered(Some("{}")), _ => Ok(ExampleParsed),
             Answered(Some("{}")), _ => Some(ExampleFound))
  }

  lemma ExampleScenario(page: string)
    requires |page| == 150
    ensures var run := Generation("https://example.com", "gemini-2.5-flash", ExampleServices(page));
      && run.outcome.Ok?
      && |run.calls| == 3 && run.calls[2] == Search("gemini-2.5-flash", "Acme", "Retail")
      && run.outcome.value.data_source == Some(RealContent)
      && run.outcome.value.competitor_1_name == Some("Rival One")
      && run.outcome.value.competitor_2_name == Some("Rival Two")
      && run.outcome.value.warnings == Some(SearchNote)
  {
    ExampleRun(page);
    ExampleMerge();
  }

  /** The scenario's run searches once and returns the merge. */
  lemma ExampleRun(page: string)
    requires |page| == 150
    ensures var run := Generation("https://example.com", "gemini-2.5-flash", ExampleServices(page));
      && run.outcome == Ok(MergeCompetitors(ForceRealContent(ExampleParsed), ExampleCompetitors))
      && |run.calls| == 3 && run.calls[2] == Search("gemini-2.5-flash", "Acme", "Retail")
  {
    ExampleNeedsSearch();
    ExampleLookup(page);
    SearchingRun("https://example.com", "gemini-2.5-flash", ExampleServices(page), ExampleParsed);
  }

  /** A run whose parsed profile fires the trigger, spelled out: three calls
      ending with the search, and the merge as its profile. */
  lemma SearchingRun(url: string, model: string, w: Services, parsed: BrandProfile)
    requires w.apiKey != "" && w.reader.ReaderResponse? && IsOkStatus(w.reader.status)
    requires |Truncate(w.reader.body)| >= MinContentLength
    requires AnalysisResult(w.analysis, w.parseProfile) == Ok(parsed)
    requires NeedsCompetitorSearch(parsed)
    ensures Generation(url, model, w)
         == Run(Ok(MergeCompetitors(ForceRealContent(parsed), CompetitorLookup(w.search, w.parseCompetitors))),
                [ReadPage(url), Analyze(model, url, Truncate(w.reader.body)),
                 Search(model, parsed.brand_name.value, parsed.settore.value)])
  {
    SearchExactlyWhenNeeded(url, model, w, parsed);
  }

  /** What the merge makes of the scenario's profile. */
  lemma ExampleMerge()
    ensures var r := MergeCompetitors(ForceRealContent(ExampleParsed), ExampleCompetitors);
      && r.data_source == Some(RealContent)
      && r.competitor_1_name == Some("Rival One")
      && r.competitor_2_name == Some("Rival Two")
      && r.warnings == Some(SearchNote)
  {
    assert ForceRealContent(ExampleParsed).warnings == None;
    assert "" + SearchNote == SearchNote;
  }

  lemma ExampleNeedsSearch()
    ensures NeedsCompetitorSearch(ExampleParsed)
  {
    assert Trim("") == "";
  }

  lemma ExampleLookup(page: string)
    ensures CompetitorLookup(ExampleServices(page).search, ExampleServices(page).parseCompetitors)
         == ExampleCompetitors
  {
  }
}
