/** The page-level state of App.tsx: the URL being worked on, the profile
    on screen, the page status and the error banner, and the handlers that
    move them. Each handler that awaits something is split at the await:
    `Start…` is what runs when the user acts, `Finish…` what runs when the
    awaited call settles; `Handle…` runs both with nothing in between. */
module App {
  import opened Wrappers
  import opened Profile
  import Gemini

  datatype Status = Idle | Generating | Publishing | Success | Error

  /** The webhook POST: where it goes and the profile it carries. */
  datatype Request = Post(url: string, payload: BrandProfile)

  /** What the webhook POST gives back: a response with its status, or a
      failure of the request itself (network, CORS). */
  datatype Delivery = Responded(status: nat) | Unreachable

  const EmptyUrlMessage := "Inserisci un sito web o nome brand."
  const NoProfileMessage := "Genera prima il profilo."
  const DeliveryFailedMessage := "Errore Invio (Controlla N8N / CORS)"
  const GenerationFailedPrefix := "Errore AI: "
  /** The models offered in the configuration panel, by API name. */
  const AvailableModels: seq<string> := ["gemini-2.5-flash", "gemini-2.5-flash-thinking", "gemini-3-pro-preview"]
  /** The first entry of the model list, selected at start. */
  const DefaultModel := AvailableModels[0]
  const DefaultWebhookUrl := "https://emanueleserra.app.n8n.cloud/webhook-test/ce8cd3db-560e-4d51-b39b-9ea2e5d3b64a"

  /** `keywords.filter(k => k !== keyword)`: every occurrence of `keyword`
      goes, every other keyword stays as often as it was there. */
  function WithoutKeyword(keywords: seq<string>, keyword: string): (r: seq<string>)
    ensures multiset(r) == multiset(keywords)[keyword := 0]
  {
    if keywords == [] then []
    else
      var rest := WithoutKeyword(keywords[1..], keyword);
      assert keywords == [keywords[0]] + keywords[1..];
      if keywords[0] == keyword then rest else [keywords[0]] + rest
  }

  /** Filtering works piecewise, so the keywords that stay keep their
      order. */
  lemma {:induction false} WithoutKeywordSplits(a: seq<string>, b: seq<string>, keyword: string)
    ensures WithoutKeyword(a + b, keyword) == WithoutKeyword(a, keyword) + WithoutKeyword(b, keyword)
  {
    if a == [] {
      assert a + b == b;
    } else {
      assert (a + b)[1..] == a[1..] + b;
      WithoutKeywordSplits(a[1..], b, keyword);
    }
  }

  /** Removing a keyword that is not there changes nothing. */
  lemma {:induction false} WithoutAbsentKeyword(keywords: seq<string>, keyword: string)
    requires keyword !in keywords
    ensures WithoutKeyword(keywords, keyword) == keywords
  {
    if keywords != [] {
      WithoutAbsentKeyword(keywords[1..], keyword);
      assert keywords == [keywords[0]] + keywords[1..];
    }
  }

  /** The webhook payload `{ ...profile, website: websiteUrl }`: every field
      of the profile, with `website` set to the URL typed on the page. */
  function PublishPayload(p: BrandProfile, websiteUrl: string): (r: BrandProfile)
    ensures forall k :: Get(r, k) == if k == Website then Some(Text(websiteUrl)) else Get(p, k)
  {
    SetOnlyChangesKey(p, Website, Text(websiteUrl));
    Set(p, Website, Text(websiteUrl))
  }

  class Page {
    var webhookUrl: string
    var selectedModel: string
    var websiteUrl: string
    var profileData: Option<BrandProfile>
    var status: Status
    var errorMsg: string
    var showEditToast: bool

    /** The initial state of the component. */
    constructor ()
      ensures webhookUrl == DefaultWebhookUrl && selectedModel == DefaultModel
      ensures websiteUrl == "" && profileData == None && status == Idle
      ensures errorMsg == "" && !showEditToast
    {
      webhookUrl := DefaultWebhookUrl;
      selectedModel := DefaultModel;
      websiteUrl := "";
      profileData := None;
      status := Idle;
      errorMsg := "";
      showEditToast := false;
    }

    /** The Generate button is disabled. */
    predicate GenerateDisabled()
      reads this
    {
      status == Generating || websiteUrl == ""
    }

    /** The Deploy button is disabled. */
    predicate PublishDisabled()
      reads this
    {
      status == Publishing
    }

    /** Typing in the URL field. */
    method EnterUrl(url: string)
      modifies this`websiteUrl
      ensures websiteUrl == url
    {
      websiteUrl := url;
    }

    /** Editing the webhook endpoint in the configuration panel. */
    method SetWebhookUrl(url: string)
      modifies this`webhookUrl
      ensures webhookUrl == url
    {
      webhookUrl := url;
    }

    /** Choosing a model in the configuration panel. */
    method SelectModel(name: string)
      modifies this`selectedModel
      ensures selectedModel == name
    {
      selectedModel := name;
    }

    /** showError: puts a message in the error banner. */
    method ShowError(message: string)
      modifies this`errorMsg
      ensures errorMsg == message
    {
      errorMsg := message;
    }

    /** handleGenerate up to its await: with no URL, only the error banner
      changes; otherwise the page enters the generating state with the old
      profile and error gone. An enabled Generate button always starts. */
    method StartGenerate() returns (started: bool)
      modifies this`status, this`errorMsg, this`profileData, this`showEditToast
      ensures started <==> old(websiteUrl) != ""
      ensures !old(GenerateDisabled()) ==> started
      ensures !started ==>
        && errorMsg == EmptyUrlMessage
        && status == old(status) && profileData == old(profileData) && showEditToast == old(showEditToast)
      ensures started ==>
        && status == Generating && errorMsg == "" && profileData == None && !showEditToast
        && GenerateDisabled()
    {
      if websiteUrl == "" {
        ShowError(EmptyUrlMessage);
        return false;
      }
      status := Generating;
      errorMsg := "";
      profileData := None;
      showEditToast := false;
      started := true;
    }

    /** handleGenerate after its await: the page returns to idle (not to
      success); a profile is shown, a failure is reported in the banner. */
    method FinishGenerate(outcome: Result<BrandProfile, string>)
      modifies this`status, this`errorMsg, this`profileData
      ensures status == Idle
      ensures outcome.Ok? ==> profileData == Some(outcome.value) && errorMsg == old(errorMsg)
      ensures outcome.Err? ==>
        profileData == old(profileData) && errorMsg == GenerationFailedPrefix + outcome.error
    {
      match outcome
      case Ok(data) =>
        profileData := Some(data);
        status := Idle;
      case Err(message) =>
        ShowError(GenerationFailedPrefix + message);
        status := Idle;
    }

    /** handleGenerate, start to finish, with the pipeline run on the URL
      and model on the page; `calls` are the outside calls it made. */
    method HandleGenerate(services: Gemini.Services) returns (calls: seq<Gemini.Call>)
      modifies this`status, this`errorMsg, this`profileData, this`showEditToast
      ensures old(websiteUrl) == "" ==>
        && calls == []
        && errorMsg == EmptyUrlMessage
        && status == old(status) && profileData == old(profileData) && showEditToast == old(showEditToast)
      ensures old(websiteUrl) != "" ==>
        var run := Gemini.Generation(old(websiteUrl), old(selectedModel), services);
        && calls == run.calls
        && status == Idle && !showEditToast
        && (run.outcome.Ok? ==> profileData == Some(run.outcome.value) && errorMsg == "")
        && (run.outcome.Err? ==> profileData == None && errorMsg == GenerationFailedPrefix + run.outcome.error)
      ensures old(websiteUrl) != "" && profileData.Some? ==>
        profileData.value.data_source == Some(Gemini.RealContent)
    {
      calls := [];
      var started := StartGenerate();
      if started {
        var outcome;
        outcome, calls := Gemini.GenerateBrandProfile(websiteUrl, selectedModel, services);
        Gemini.SuccessIsRealContent(websiteUrl, selectedModel, services);
        FinishGenerate(outcome);
      }
    }

    /** handleUpdate: with a profile on screen, one field takes the new
      value and every other field stays; with none, nothing happens. */
    method HandleUpdate(field: Key, value: Value)
      requires Fits(field, value)
      modifies this`profileData
      ensures old(profileData).None? ==> profileData == None
      ensures old(profileData).Some? ==>
        && profileData.Some?
        && forall k :: Get(profileData.value, k) == if k == field then Some(value) else Get(old(profileData).value, k)
    {
      if profileData.Some? {
        SetOnlyChangesKey(profileData.value, field, value);
        profileData := Some(Set(profileData.value, field, value));
      }
    }

    /** removeKeyword: with a profile that has keywords, the keyword list
      loses every occurrence of `keyword` and nothing else changes; without
      one, nothing happens. */
    method RemoveKeyword(keyword: string)
      modifies this`profileData
      ensures old(profileData).None? || old(profileData).value.keywords.None? ==>
        profileData == old(profileData)
      ensures old(profileData).Some? && old(profileData).value.keywords.Some? ==>
        && profileData.Some?
        && profileData.value.keywords == Some(WithoutKeyword(old(profileData).value.keywords.value, keyword))
        && forall k :: k != Keywords ==> Get(profileData.value, k) == Get(old(profileData).value, k)
    {
      if profileData.Some? && profileData.value.keywords.Some? {
        var before := profileData.value;
        HandleUpdate(Keywords, Words(WithoutKeyword(before.keywords.value, keyword)));
        assert Get(profileData.value, Keywords) == Some(Words(WithoutKeyword(before.keywords.value, keyword)));
      }
    }

    /** handlePublish up to its await: with no profile, only the banner
      changes; otherwise the page enters the publishing state (which
      disables the Deploy button) and the request to the configured webhook
      is built. */
    method StartPublish() returns (request: Option<Request>)
      modifies this`status, this`errorMsg
      ensures old(profileData).None? ==>
        request == None && errorMsg == NoProfileMessage && status == old(status)
      ensures old(profileData).Some? ==>
        && request == Some(Post(webhookUrl, PublishPayload(profileData.value, websiteUrl)))
        && status == Publishing && errorMsg == old(errorMsg)
        && PublishDisabled()
    {
      if profileData.None? {
        ShowError(NoProfileMessage);
        return None;
      }
      status := Publishing;
      request := Some(Post(webhookUrl, PublishPayload(profileData.value, websiteUrl)));
    }

    /** handlePublish after its await: a 2xx response is success; any other
      status, or a failed request, is an error with the delivery message. */
    method FinishPublish(delivery: Delivery)
      modifies this`status, this`errorMsg
      ensures delivery.Responded? && 200 <= delivery.status <= 299 ==>
        status == Success && errorMsg == old(errorMsg)
      ensures !(delivery.Responded? && 200 <= delivery.status <= 299) ==>
        status == Error && errorMsg == DeliveryFailedMessage
    {
      if delivery.Responded? && 200 <= delivery.status <= 299 {
        status := Success;
      } else {
        ShowError(DeliveryFailedMessage);
        status := Error;
      }
    }

    /** handlePublish, start to finish, with `delivery` as the outcome of the
      request it returns. */
    method HandlePublish(delivery: Delivery) returns (request: Option<Request>)
      modifies this`status, this`errorMsg
      ensures old(profileData).None? ==>
        request == None && errorMsg == NoProfileMessage && status == old(status)
      ensures old(profileData).Some? ==>
        && request == Some(Post(webhookUrl, PublishPayload(profileData.value, websiteUrl)))
        && status == (if delivery.Responded? && 200 <= delivery.status <= 299 then Success else Error)
        && (status == Success ==> errorMsg == old(errorMsg))
        && (status == Error ==> errorMsg == DeliveryFailedMessage)
    {
      request := StartPublish();
      if request.Some? {
        FinishPublish(delivery);
      }
    }

    /** reset: back to an empty form; the banner, the webhook URL and the
      selected model are left as they are. */
    method Reset()
      modifies this`websiteUrl, this`profileData, this`status, this`showEditToast
      ensures websiteUrl == "" && profileData == None && status == Idle && !showEditToast
    {
      websiteUrl := "";
      profileData := None;
      status := Idle;
      showEditToast := false;
    }
  }
}
