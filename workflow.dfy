/** The submit and download workflows of the résumé form (handleSubmit and
    handleDownload, identical in ResumeForm.tsx and ResumeForm.fixed.tsx):
    four pieces of React state, loading, error, success and downloadUrl,
    updated step by step around one HTTP call whose outcome is a parameter. */
module Workflow {
  import opened Wrappers
  import opened Strings
  import Draft
  import FormEvents

  const DefaultApiBase: string := "http://localhost:5000"
  const GenerateFallback: string := "Failed to generate resume"
  const UnknownServerError: string := "Unknown error"
  const NoResponseMessage: string := "No response from server. " + "Please check if the backend is running."
  const UnexpectedMessage: string := "An unexpected error occurred. " + "Please try again."
  const NoDownloadMessage: string := "No resume available for download"
  const DownloadFailedMessage: string := "Failed to download resume. " + "Please try again."
  const ServerErrorPrefix: string := "Server error: "
  const RequestErrorPrefix: string := "Request error: "

  /** API_BASE_URL: the environment override when it is a non-empty string
      (`||` falls back on ''), else the local server. ResumeForm.tsx
      hard-codes the fallback, which is ApiBaseUrl(None). */
  function ApiBaseUrl(env: Option<string>): (r: string)
    ensures r != ""
    ensures env.Some? && env.value != "" ==> r == env.value
    ensures env.None? || env.value == "" ==> r == DefaultApiBase
  {
    if env.Some? && env.value != "" then env.value else DefaultApiBase
  }

  /** The JSON body the server answers with; each key may be absent. */
  datatype ApiResponse = ApiResponse(message: Option<string>, error: Option<string>, downloadUrl: Option<string>)

  /** How `await axios.post(...)` ends: a 2xx response, or one of the ways
      the catch block tells failures apart. */
  datatype PostResult =
    | Ok(data: ApiResponse)
    | HttpError(status: nat, error: Option<string>)
    | NoResponse
    | RequestError(message: string)
    | Other

  /** How the GET of the document and the browser save end. */
  datatype DownloadResult = Saved | DownloadFailed

  /** A JavaScript string value is truthy when present and non-empty. */
  predicate Truthy(o: Option<string>) {
    o.Some? && o.value != ""
  }

  /** `o || fallback` */
  function OrElse(o: Option<string>, fallback: string): (r: string)
    ensures Truthy(o) ==> r == o.value
    ensures !Truthy(o) ==> r == fallback
  {
    if Truthy(o) then o.value else fallback
  }

  datatype Status = Status(loading: bool, error: string, success: bool, downloadUrl: string)

  /** The state the component mounts with. */
  const Idle: Status := Status(false, "", false, "")

  /** The four classes of failure the catch block distinguishes. */
  datatype Cause = ServerError | Unreachable | BadRequest | Unexpected

  function CauseOf(r: PostResult): Cause
    requires !r.Ok?
  {
    match r
    case HttpError(_, _) => ServerError
    case NoResponse => Unreachable
    case RequestError(_) => BadRequest
    case Other => Unexpected
  }

  /** The message the catch block shows for a failed POST. */
  function FailureMessage(r: PostResult): (m: string)
    requires !r.Ok?
    ensures m != ""
    ensures r.HttpError? ==> ServerErrorPrefix <= m
    ensures r.NoResponse? ==> m == NoResponseMessage
    ensures r.RequestError? ==> RequestErrorPrefix <= m && m[|RequestErrorPrefix|..] == r.message
    ensures r.Other? ==> m == UnexpectedMessage
  {
    match r
    case HttpError(status, error) =>
      ServerErrorPrefix + Decimal(status) + " - " + OrElse(error, UnknownServerError)
    case NoResponse => NoResponseMessage
    case RequestError(msg) => RequestErrorPrefix + msg
    case Other => UnexpectedMessage
  }

  /** Reads the class of failure back from a displayed message. */
  function MessageCause(m: string): Cause
  {
    if ServerErrorPrefix <= m then ServerError
    else if m == NoResponseMessage then Unreachable
    else if RequestErrorPrefix <= m then BadRequest
    else Unexpected
  }

  /** Each failure is shown with a message of its own class, so the four
      classes never share a message. */
  lemma FailureMessageNamesCause(r: PostResult)
    requires !r.Ok?
    ensures MessageCause(FailureMessage(r)) == CauseOf(r)
  {
    var m := FailureMessage(r);
    assert ServerErrorPrefix[0] == 'S' && RequestErrorPrefix[0] == 'R';
    assert NoResponseMessage[0] == 'N' && UnexpectedMessage[0] == 'A';
    match r
    case HttpError(_, _) =>
      assert m[..|ServerErrorPrefix|] == ServerErrorPrefix;
    case NoResponse =>
    case RequestError(msg) =>
      assert m[0] == 'R';
      assert m[..|RequestErrorPrefix|] == RequestErrorPrefix;
    case Other =>
  }

  lemma FailureMessagesDistinct(r1: PostResult, r2: PostResult)
    requires !r1.Ok? && !r2.Ok? && CauseOf(r1) != CauseOf(r2)
    ensures FailureMessage(r1) != FailureMessage(r2)
  {
    FailureMessageNamesCause(r1);
    FailureMessageNamesCause(r2);
  }

  /** The longest run of decimal digits at the start of s. */
  function LeadingDigits(s: string): (r: string)
    ensures r <= s
    ensures forall k :: 0 <= k < |r| ==> '0' <= r[k] <= '9'
  {
    if s != [] && '0' <= s[0] <= '9' then [s[0]] + LeadingDigits(s[1..]) else []
  }

  lemma {:induction false} LeadingDigitsOf(d: string, t: string)
    requires forall k :: 0 <= k < |d| ==> '0' <= d[k] <= '9'
    requires t == [] || !('0' <= t[0] <= '9')
    ensures LeadingDigits(d + t) == d
  {
    if d != [] {
      assert (d + t)[1..] == d[1..] + t;
      LeadingDigitsOf(d[1..], t);
    } else {
      assert d + t == t;
    }
  }

  /** The HTTP status a "Server error: ..." message shows. */
  function StatusShown(m: string): nat
    requires ServerErrorPrefix <= m
  {
    ParseDecimal(LeadingDigits(m[|ServerErrorPrefix|..]))
  }

  /** A server error message shows the response's status code. */
  lemma ServerErrorShowsStatus(status: nat, error: Option<string>)
    ensures ServerErrorPrefix <= FailureMessage(HttpError(status, error))
    ensures StatusShown(FailureMessage(HttpError(status, error))) == status
  {
    var m := FailureMessage(HttpError(status, error));
    var rest := " - " + OrElse(error, UnknownServerError);
    assert m == ServerErrorPrefix + (Decimal(status) + rest);
    assert m[|ServerErrorPrefix|..] == Decimal(status) + rest;
    LeadingDigitsOf(Decimal(status), rest);
    DecimalRoundTrip(status);
  }

  /** The server's error text a "Server error: <status> - <text>" message
      shows: what follows the status and the " - " after it. */
  function ErrorShown(m: string): string
    requires ServerErrorPrefix <= m
  {
    var rest := m[|ServerErrorPrefix|..];
    var after := rest[|LeadingDigits(rest)|..];
    if " - " <= after then after[3..] else ""
  }

  /** A server error message shows the error text of the response body, or
      "Unknown error" when the body has none or an empty one. */
  lemma ServerErrorShowsText(status: nat, error: Option<string>)
    ensures ErrorShown(FailureMessage(HttpError(status, error))) ==
      if error.Some? && error.value != "" then error.value else UnknownServerError
  {
    var m := FailureMessage(HttpError(status, error));
    var text := OrElse(error, UnknownServerError);
    var rest := " - " + text;
    assert m == ServerErrorPrefix + (Decimal(status) + rest);
    assert m[|ServerErrorPrefix|..] == Decimal(status) + rest;
    LeadingDigitsOf(Decimal(status), rest);
    assert (Decimal(status) + rest)[|Decimal(status)|..] == rest;
    assert rest[3..] == text;
  }

  /** The state handleSubmit leaves once the POST has settled: the outcome
      alone decides it, whatever the state before the submit was. */
  function Submitted(base: string, r: PostResult): (s: Status)
    ensures !s.loading
    ensures s.success <==> r.Ok? && Truthy(r.data.message)
    ensures s.success ==> s.error == "" && s.downloadUrl == base + OrElse(r.data.downloadUrl, "/download")
    ensures s.success ==> base <= s.downloadUrl && |s.downloadUrl| > |base|
    ensures !s.success ==> s.downloadUrl == "" && s.error != ""
    ensures r.Ok? && !Truthy(r.data.message) ==> s.error == OrElse(r.data.error, GenerateFallback)
    ensures !r.Ok? ==> s.error == FailureMessage(r)
  {
    match r
    case Ok(data) =>
      if Truthy(data.message) then
        Status(false, "", true, base + OrElse(data.downloadUrl, "/download"))
      else
        Status(false, OrElse(data.error, GenerateFallback), false, "")
    case _ => Status(false, FailureMessage(r), false, "")
  }

  /** A download control can be used: the success alert's link is enabled
      when not loading and a URL is known, and the bottom button is rendered
      when a URL is known and enabled when not loading. */
  predicate DownloadOffered(s: Status) {
    s.downloadUrl != "" && !s.loading
  }

  /** After a submit, downloading is offered exactly when it succeeded. */
  lemma DownloadOfferedAfterSubmit(base: string, r: PostResult)
    ensures DownloadOffered(Submitted(base, r)) <==> Submitted(base, r).success
  {
  }

  /** The state handleDownload leaves: with no URL it only reports the
      missing document; otherwise loading ends false, and a failure replaces
      the error message while a success leaves it as it was. */
  function Downloaded(s: Status, r: DownloadResult): (t: Status)
    ensures s.downloadUrl == "" ==> t == s.(error := NoDownloadMessage)
    ensures s.downloadUrl != "" ==> !t.loading && t.success == s.success && t.downloadUrl == s.downloadUrl
    ensures s.downloadUrl != "" && r == DownloadFailed ==> t.error == DownloadFailedMessage
    ensures s.downloadUrl != "" && r == Saved ==> t.error == s.error
  {
    if s.downloadUrl == "" then s.(error := NoDownloadMessage)
    else if r == Saved then s.(loading := false)
    else s.(loading := false, error := DownloadFailedMessage)
  }

  /** An HTTP request the component sends. */
  datatype Request = Post(url: string, body: Draft.FormData) | Get(url: string)

  /** The ResumeForm component: the form editor's state and the workflow
      state, with one event handled at a time. */
  class ResumeForm {
    const apiBase: string
    var editor: Draft.Editor
    var loading: bool
    var error: string
    var success: bool
    var downloadUrl: string
    /** The requests sent so far, in order. */
    ghost var requests: seq<Request>

    function State(): Status
      reads this
    {
      Status(loading, error, success, downloadUrl)
    }

    /** Mounting the component with the environment's base URL override. */
    constructor (env: Option<string>)
      ensures apiBase == ApiBaseUrl(env)
      ensures editor == Draft.InitialEditor() && State() == Idle && requests == []
    {
      apiBase := ApiBaseUrl(env);
      editor := Draft.InitialEditor();
      loading, error, success, downloadUrl := false, "", false, "";
      requests := [];
    }

    /** A user action on the form's fields and lists. */
    method Edit(ev: FormEvents.Event)
      modifies this
      ensures editor == FormEvents.Step(old(editor), ev)
      ensures State() == old(State()) && requests == old(requests)
    {
      editor := FormEvents.Step(editor, ev);
    }

    /** handleSubmit up to the await: clear the previous outcome, set
      loading, and post the whole form. */
    method StartSubmit()
      modifies this
      ensures loading && error == "" && !success && downloadUrl == ""
      ensures editor == old(editor)
      ensures requests == old(requests) + [Post(apiBase + "/generate", editor.form)]
    {
      loading := true;
      error := "";
      success := false;
      downloadUrl := "";
      requests := requests + [Post(apiBase + "/generate", editor.form)];
    }

    /** handleSubmit after the await: the try, catch and finally blocks. */
    method FinishSubmit(r: PostResult)
      requires !success && error == "" && downloadUrl == ""
      modifies this
      ensures State() == Submitted(apiBase, r)
      ensures editor == old(editor) && requests == old(requests)
    {
      match r {
        case Ok(data) =>
          if Truthy(data.message) {
            success := true;
            if Truthy(data.downloadUrl) {
              downloadUrl := apiBase + data.downloadUrl.value;
            } else {
              downloadUrl := apiBase + "/download";
            }
          } else {
            error := OrElse(data.error, GenerateFallback);
          }
        case HttpError(status, err) =>
          error := ServerErrorPrefix + Decimal(status) + " - " + OrElse(err, UnknownServerError);
        case NoResponse =>
          error := NoResponseMessage;
        case RequestError(msg) =>
          error := RequestErrorPrefix + msg;
        case Other =>
          error := UnexpectedMessage;
      }
      loading := false;
    }

    /** The whole of handleSubmit for one outcome of the POST. */
    method Submit(r: PostResult)
      modifies this
      ensures State() == Submitted(apiBase, r)
      ensures editor == old(editor)
      ensures requests == old(requests) + [Post(apiBase + "/generate", editor.form)]
    {
      StartSubmit();
      FinishSubmit(r);
    }

    /** handleDownload: with no URL it reports the missing document and
      sends nothing; otherwise it fetches the URL and saves the file. */
    method Download(r: DownloadResult)
      modifies this
      ensures State() == Downloaded(old(State()), r)
      ensures old(downloadUrl) == "" ==> requests == old(requests)
      ensures old(downloadUrl) != "" ==> requests == old(requests) + [Get(old(downloadUrl))]
      ensures editor == old(editor)
    {
      if downloadUrl == "" {
        error := NoDownloadMessage;
        return;
      }
      loading := true;
      requests := requests + [Get(downloadUrl)];
      if r == DownloadFailed {
        error := DownloadFailedMessage;
      }
      loading := false;
    }
  }
}
