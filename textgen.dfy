/** generate_text's handling of the Hugging Face reply and enhance_content's
    fallback (app.py). The request itself is not modelled: the reply to a
    prompt is a parameter, either as a value or as an oracle from the prompt
    sent to the reply received. */
module TextGen {
  import opened Wrappers
  import opened Strings
  import opened Json

  /** What requests.post(...) yields: a response whose status is not 200,
      with its body text, a 200 response whose body decodes to `data`, a
      timeout, or any other requests exception, with its text. */
  datatype Reply =
    | Rejected(text: string)
    | Body(data: Json)
    | TimedOut
    | RequestFailed(detail: string)

  /** Why generate_text raises. */
  datatype GenError =
    | ApiError(text: string)
    | EmptyText
    | EmptyAfterCleanup
    | UnexpectedFormat
    | NotText
    | Timeout
    | RequestError(detail: string)

  const InstOpen: string := "[INST]"
  const InstClose: string := "[/INST]"

  /** The exception text generate_text raises with. For UnexpectedFormat the
      text also carries Python's rendering of the body, which is not
      modelled; for NotText it is an AttributeError raised by Python. */
  function Message(e: GenError): (m: string)
    ensures m != ""
  {
    match e
    case ApiError(text) => "Hugging Face API error: " + text
    case EmptyText => "Generated text is empty"
    case EmptyAfterCleanup => "Generated text is empty after cleanup"
    case UnexpectedFormat => "Unexpected response format: "
    case NotText => "object has no attribute"
    case Timeout => "Request timed out"
    case RequestError(detail) => "Request error: " + detail
  }

  /** The clean-up: strip, then delete "[INST]", then delete "[/INST]", one
      left-to-right pass each. */
  function Clean(g: string): (r: string)
    ensures |r| <= |PyStrip(g)|
    ensures !Occurs(InstOpen, PyStrip(g)) && !Occurs(InstClose, PyStrip(g)) ==> r == PyStrip(g)
  {
    RemoveAll(RemoveAll(PyStrip(g), InstOpen), InstClose)
  }

  /** response_data[0].get('generated_text', ''), or None when the first
      item has no .get. */
  function GeneratedField(first: Json): Option<Json> {
    if !first.JObject? then None
    else if "generated_text" in first.fields then Some(first.fields["generated_text"])
    else Some(JString(""))
  }

  /** The generated text of a well-formed reply: the string under
      "generated_text" in the first item of a non-empty list. */
  function Generated(reply: Reply): Option<string> {
    if reply.Body? && reply.data.JArray? && reply.data.items != [] then
      var field := GeneratedField(reply.data.items[0]);
      if field.Some? && field.value.JString? then Some(field.value.s) else None
    else None
  }

  /** generate_text from the first item's generated_text onwards: the two
      emptiness checks around the clean-up. */
  function FromField(field: Option<Json>): (r: Result<string, GenError>)
    ensures r.Success? <==> field.Some? && field.value.JString? && Clean(field.value.s) != ""
    ensures r.Success? ==> r.value == Clean(field.value.s)
    ensures field.Some? && !Truthy(field.value) <==> r == Failure(EmptyText)
    ensures field.None? || (Truthy(field.value) && !field.value.JString?) <==> r == Failure(NotText)
  {
    if field.None? then Failure(NotText)
    else if !Truthy(field.value) then Failure(EmptyText)
    else if !field.value.JString? then Failure(NotText)
    else
      var text := Clean(field.value.s);
      if text == "" then Failure(EmptyAfterCleanup) else Success(text)
  }

  /** generate_text from the reply onwards. */
  function GenerateText(reply: Reply): (r: Result<string, GenError>)
    ensures r.Success? ==> r.value != ""
    ensures r.Success? <==> Generated(reply).Some? && Clean(Generated(reply).value) != ""
    ensures r.Success? ==> r.value == Clean(Generated(reply).value)
    ensures reply.Rejected? ==> r == Failure(ApiError(reply.text))
    ensures reply.TimedOut? ==> r == Failure(Timeout)
    ensures reply.RequestFailed? ==> r == Failure(RequestError(reply.detail))
    ensures reply.Body? && !(reply.data.JArray? && reply.data.items != []) ==> r == Failure(UnexpectedFormat)
    ensures reply.Body? && reply.data.JArray? && reply.data.items != [] ==>
      r == FromField(GeneratedField(reply.data.items[0]))
  {
    match reply
    case Rejected(text) => Failure(ApiError(text))
    case TimedOut => Failure(Timeout)
    case RequestFailed(detail) => Failure(RequestError(detail))
    case Body(data) =>
      if !data.JArray? || data.items == [] then Failure(UnexpectedFormat)
      else FromField(GeneratedField(data.items[0]))
  }

  const PromptLead: string := "As a professional resume writer, "

  const SummaryTask: string := "enhance " + "this summary while keeping the same core information and being truthful: "
  const ExperienceTask: string := "enhance " + "this job experience with strong action verbs and quantifiable achievements while keeping the same core information and being truthful: "
  const SkillsTask: string := "organize " + "and enhance this list of skills with industry-standard terminology while keeping the same core skills: "

  /** The task text of each prompt template, or "" for a section type the
      template table does not hold. */
  function Task(sectionType: string): (r: string)
    ensures r != "" <==> sectionType == "summary" || sectionType == "experience" || sectionType == "skills"
  {
    if sectionType == "summary" then SummaryTask
    else if sectionType == "experience" then ExperienceTask
    else if sectionType == "skills" then SkillsTask
    else ""
  }

  /** prompts[section_type] in enhance_content: one of three templates that
      end with the content; any other section type raises KeyError. */
  function Prompt(sectionType: string, content: string): (r: Option<string>)
    ensures r.Some? <==> sectionType == "summary" || sectionType == "experience" || sectionType == "skills"
    ensures r.Some? ==> PromptLead <= r.value
    ensures r.Some? ==> |content| < |r.value| && r.value[|r.value| - |content|..] == content
  {
    var task := Task(sectionType);
    if task == "" then None
    else
      var prompt := PromptLead + (task + content);
      assert prompt[|prompt| - |content|..] == content;
      Some(prompt)
  }

  const FormatHead: string := "<s>[INST] "
  const FormatIntro: string := "You are a professional resume writer. Your task is to enhance the following text while maintaining accuracy and professionalism. Keep the core information unchanged but make it more impactful:\n\n"
  const FormatOutro: string := "\n\nRespond with only the enhanced text, no explanations or additional formatting."
  const FormatTail: string := " [/INST]</s>"

  /** `text` between `before` and `after`. */
  function Between(before: string, text: string, after: string): (r: string)
    ensures |r| == |before| + |text| + |after|
    ensures r[..|before|] == before
    ensures r[|before|..][..|text|] == text
    ensures r[|before| + |text|..] == after
  {
    var r := before + (text + after);
    assert r[|before|..] == text + after;
    r
  }

  /** The instruction-wrapped prompt generate_text sends: the prompt sits
      between the instruction and the closing request, inside the markers. */
  function Formatted(prompt: string): (r: string)
    ensures |r| == |FormatHead + FormatIntro| + |prompt| + |FormatOutro + FormatTail|
    ensures r[..|FormatHead + FormatIntro|] == FormatHead + FormatIntro
    ensures r[|FormatHead + FormatIntro|..][..|prompt|] == prompt
    ensures r[|FormatHead + FormatIntro| + |prompt|..] == FormatOutro + FormatTail
  {
    Between(FormatHead + FormatIntro, prompt, FormatOutro + FormatTail)
  }

  /** enhance_content: the generated text, or the original content when the
      section type is unknown, generation raises, or the result is empty.
      `ask` is the model: the reply received for the text sent. */
  function EnhanceContent(sectionType: string, content: string, ask: string -> Reply): (r: string)
    ensures Prompt(sectionType, content).None? ==> r == content
    ensures Prompt(sectionType, content).Some? ==>
      var reply := GenerateText(ask(Formatted(Prompt(sectionType, content).value)));
      r == if reply.Success? then reply.value else content
    ensures r == content || r != ""
  {
    var prompt := Prompt(sectionType, content);
    if prompt.None? then content
    else
      match GenerateText(ask(Formatted(prompt.value)))
      case Success(enhanced) => if enhanced != "" then enhanced else content
      case Failure(_) => content
  }

  /** The clean-up changes the stripped text exactly when a marker occurs in
      it; otherwise the reply is returned stripped and untouched. */
  lemma CleanChangesOnlyMarkers(g: string)
    ensures Clean(g) == PyStrip(g) <==> !Occurs(InstOpen, PyStrip(g)) && !Occurs(InstClose, PyStrip(g))
  {
    var s := PyStrip(g);
    var once := RemoveAll(s, InstOpen);
    if Occurs(InstOpen, s) {
      assert |once| + |InstOpen| <= |s|;
      assert |Clean(g)| <= |once|;
    } else if Occurs(InstClose, s) {
      assert once == s;
      assert |Clean(g)| + |InstClose| <= |s|;
    }
  }

  /** One pass each does not remove every marker: deleting the inner
      "[INST]" joins the text around it into a new one. */
  lemma NestedOpenMarkerSurvives(g: string)
    requires g == "[[INST]INST]"
    ensures Clean(g) == InstOpen
  {
    TrimKeeps(g, PyWhitespace);
    RemoveNestedOpen(g);
  }

  lemma RemoveNestedOpen(g: string)
    requires g == "[[INST]INST]"
    ensures RemoveAll(g, InstOpen) == InstOpen
  {
    var p := InstOpen;
    assert g[..6][1] != p[1];
    RemoveAllMiss(g, p);
    assert g[1..][..6] == p;
    RemoveAllHit(g[1..], p);
    assert g[1..][6..] == g[7..];
    RemoveAllShort(g[7..], p);
    assert [g[0]] + g[7..] == p;
  }

  /** The same holds for the closing marker. */
  lemma NestedCloseMarkerSurvives(g: string)
    requires g == "[[/INST]/INST]"
    ensures Clean(g) == InstClose
  {
    TrimKeeps(g, PyWhitespace);
    NoOpenMarker(g);
    RemoveNestedClose(g);
  }

  lemma RemoveNestedClose(g: string)
    requires g == "[[/INST]/INST]"
    ensures RemoveAll(g, InstClose) == InstClose
  {
    var p := InstClose;
    assert g[..7][1] != p[1];
    RemoveAllMiss(g, p);
    assert g[1..][..7] == p;
    RemoveAllHit(g[1..], p);
    assert g[1..][7..] == g[8..];
    RemoveAllShort(g[8..], p);
    assert [g[0]] + g[8..] == p;
  }

  /** Stripping happens before the markers are removed, so the text after a
      leading marker keeps its leading space. */
  lemma SpaceAfterMarkerSurvives(g: string)
    requires g == "[INST] Led"
    ensures Clean(g) == " Led"
    ensures Clean(g)[0] in PyWhitespace
  {
    TrimKeeps(g, PyWhitespace);
    assert g[..6] == InstOpen;
    assert RemoveAll(g, InstOpen) == g[6..];
  }

  /** A reply of whitespace only passes the first emptiness check, which
      looks at the text before stripping, and fails the second. */
  lemma WhitespaceReplyFailsAfterCleanup(reply: Reply)
    requires Generated(reply).Some? && Generated(reply).value != []
    requires forall k :: 0 <= k < |Generated(reply).value| ==> Generated(reply).value[k] in PyWhitespace
    ensures GenerateText(reply) == Failure(EmptyAfterCleanup)
  {
    assert PyStrip(Generated(reply).value) == [];
    RejectedAfterCleanup(reply);
  }

  /** A reply made of markers only passes the first emptiness check and is
      rejected after the clean-up. */
  lemma MarkersOnlyReplyFailsAfterCleanup(reply: Reply)
    requires Generated(reply) == Some("[INST][/INST]")
    ensures GenerateText(reply) == Failure(EmptyAfterCleanup)
  {
    var g := Generated(reply).value;
    MarkersOnlyCleanToEmpty(g);
    RejectedAfterCleanup(reply);
  }

  /** A non-empty generated text that cleans to nothing is rejected by the
      second emptiness check. */
  lemma RejectedAfterCleanup(reply: Reply)
    requires Generated(reply).Some? && Generated(reply).value != []
    requires Clean(Generated(reply).value) == []
    ensures GenerateText(reply) == Failure(EmptyAfterCleanup)
  {
  }

  lemma MarkersOnlyCleanToEmpty(g: string)
    requires g == "[INST][/INST]"
    ensures Clean(g) == []
  {
    TrimKeeps(g, PyWhitespace);
    assert g[..6] == InstOpen;
    var rest := g[6..];
    assert rest[..6][1] != InstOpen[1];
    assert rest[1..][..6][0] != InstOpen[0];
    assert rest[1..][1..] == rest[2..];
    assert RemoveAll(rest[2..], InstOpen) == rest[2..];
    assert RemoveAll(rest, InstOpen) == rest;
    assert rest[..7] == InstClose;
    assert RemoveAll(rest, InstClose) == [];
  }

  /** A text in which no '[' is directly followed by 'I' has no "[INST]" in
      it. */
  lemma {:induction false} NoOpenMarker(s: string)
    requires forall k :: 0 <= k < |s| - 1 ==> !(s[k] == '[' && s[k + 1] == 'I')
    ensures !Occurs(InstOpen, s)
    decreases |s|
  {
    if |InstOpen| <= |s| {
      assert s[..6] != InstOpen by {
        assert !(s[0] == '[' && s[1] == 'I');
      }
      NoOpenMarker(s[1..]);
    }
  }
}
