/** The text of the document generate_resume lays out (app.py). The
    document is its sequence of paragraph texts, each the concatenation of
    the runs added to it; fonts, sizes, colours, bold and italics are
    python-docx formatting and are not modelled. */
module Layout {
  import opened Wrappers
  import opened Strings
  import opened Json
  import Draft
  import Backend

  /** What generate_resume reads from the payload, with the item records the
      form sends. Sections read with data.get(...) are [] when absent or
      falsy. */
  datatype Resume = Resume(
    name: string,
    email: string,
    phone: string,
    location: string,
    summary: string,
    technicalSkills: seq<string>,
    softSkills: seq<string>,
    education: seq<Draft.Education>,
    experience: seq<Draft.Experience>,
    projects: seq<Draft.Project>,
    certifications: seq<Draft.Certification>,
    achievements: seq<Draft.Achievement>,
    activities: seq<Draft.Activity>,
    languages: seq<Draft.Language>,
    hobbies: seq<string>)

  /** Why the server answers 500 instead of writing the document. */
  datatype GenerateError =
    | MissingRequiredFields
    | BadStyle(cause: Backend.StyleError)
    | Malformed
    | NotXmlCompatible

  // ---------------------------------------------------------------------
  // Reading the payload

  function Text(o: map<string, Json>, key: string): Option<string> {
    if key in o && o[key].JString? then Some(o[key].s) else None
  }

  /** edu.get('gpa'): an absent or null value is never printed, like ''. */
  function OptionalText(o: map<string, Json>, key: string): Option<string> {
    if key !in o || o[key] == JNull then Some("")
    else if o[key].JString? then Some(o[key].s)
    else None
  }

  function ReadExperience(v: Json): Option<Draft.Experience> {
    if !v.JObject? then None
    else
      var o := v.fields;
      if Text(o, "company").Some? && Text(o, "title").Some? && Text(o, "dates").Some? && Text(o, "description").Some? then
        Some(Draft.Experience(o["company"].s, o["title"].s, o["dates"].s, o["description"].s))
      else None
  }

  function ReadEducation(v: Json): Option<Draft.Education> {
    if !v.JObject? then None
    else
      var o := v.fields;
      if Text(o, "school").Some? && Text(o, "degree").Some? && Text(o, "graduationDate").Some? && OptionalText(o, "gpa").Some? then
        Some(Draft.Education(o["school"].s, o["degree"].s, o["graduationDate"].s, OptionalText(o, "gpa").value))
      else None
  }

  /** The server never reads a project's link. */
  function ReadProject(v: Json): Option<Draft.Project> {
    if !v.JObject? then None
    else
      var o := v.fields;
      if Text(o, "title").Some? && Text(o, "description").Some? && Text(o, "technologies").Some? then
        Some(Draft.Project(o["title"].s, o["description"].s, o["technologies"].s, None))
      else None
  }

  function ReadCertification(v: Json): Option<Draft.Certification> {
    if !v.JObject? then None
    else
      var o := v.fields;
      if Text(o, "name").Some? && Text(o, "issuer").Some? && Text(o, "date").Some? then
        Some(Draft.Certification(o["name"].s, o["issuer"].s, o["date"].s, None))
      else None
  }

  function ReadAchievement(v: Json): Option<Draft.Achievement> {
    if !v.JObject? then None
    else
      var o := v.fields;
      if Text(o, "title").Some? && Text(o, "date").Some? && Text(o, "description").Some? then
        Some(Draft.Achievement(o["title"].s, o["date"].s, o["description"].s))
      else None
  }

  function ReadActivity(v: Json): Option<Draft.Activity> {
    if !v.JObject? then None
    else
      var o := v.fields;
      if Text(o, "title").Some? && Text(o, "organization").Some? && Text(o, "date").Some? && Text(o, "description").Some? then
        Some(Draft.Activity(o["title"].s, o["organization"].s, o["date"].s, o["description"].s))
      else None
  }

  function ReadLanguage(v: Json): Option<Draft.Language> {
    if !v.JObject? then None
    else
      var o := v.fields;
      if Text(o, "name").Some? && Text(o, "proficiency").Some? then
        Some(Draft.Language(o["name"].s, o["proficiency"].s))
      else None
  }

  /** Reads every item, or fails if one cannot be read. */
  function ReadAll<T>(items: seq<Json>, read: Json -> Option<T>): (r: Option<seq<T>>)
    ensures r.Some? <==> forall k :: 0 <= k < |items| ==> read(items[k]).Some?
    ensures r.Some? ==> |r.value| == |items|
    ensures r.Some? ==> forall k :: 0 <= k < |items| ==> r.value[k] == read(items[k]).value
  {
    if items == [] then Some([])
    else
      var first := read(items[0]);
      var rest := ReadAll(items[1..], read);
      if first.Some? && rest.Some? then Some([first.value] + rest.value) else None
  }

  /** A value iterated with `for x in v` whose items are read: a list, or an
      empty string or object, which yield no items; any other value makes
      Python raise, directly or on the first item. */
  function ReadEntries<T>(v: Json, read: Json -> Option<T>): (r: Option<seq<T>>)
    ensures r.Some? && v.JArray? ==> |r.value| == |v.items|
    ensures r.Some? && !v.JArray? ==> r.value == []
    ensures v.JArray? ==> r == ReadAll(v.items, read)
    ensures !v.JArray? ==> (r.Some? <==> v == JString("") || v == JObject(map[]))
  {
    if v.JArray? then ReadAll(v.items, read)
    else if v == JString("") || v == JObject(map[]) then Some([])
    else None
  }

  /** How a list section read with data.get(key) relates to the payload: an
      absent or falsy value gives no entries, a list one entry per item. */
  predicate SectionMatches<T>(data: map<string, Json>, key: string, entries: seq<T>) {
    && (key !in data || !Truthy(data[key]) ==> entries == [])
    && (key in data && data[key].JArray? ==> |entries| == |data[key].items|)
  }

  /** A section read with data.get(key): skipped when absent or falsy,
      otherwise iterated as a list. */
  function ReadSection<T>(data: map<string, Json>, key: string, read: Json -> Option<T>): (r: Option<seq<T>>)
    ensures r.Some? ==> SectionMatches(data, key, r.value)
    ensures key !in data || !Truthy(data[key]) ==> r == Some([])
    ensures key in data && data[key].JArray? ==> r == ReadAll(data[key].items, read)
    ensures key in data && Truthy(data[key]) && !data[key].JArray? ==> r.None?
  {
    if key !in data || !Truthy(data[key]) then Some([])
    else if data[key].JArray? then ReadAll(data[key].items, read)
    else None
  }

  function ReadText(v: Json): Option<string> {
    if v.JString? then Some(v.s) else None
  }

  /** What ', '.join(v) iterates over: the items of a list, which must be
      strings, or the characters of a string; other values make Python
      raise. */
  function ReadTextList(v: Json): (r: Option<seq<string>>)
    ensures v.JArray? ==> (r.Some? <==> forall k :: 0 <= k < |v.items| ==> v.items[k].JString?)
    ensures v.JArray? && r.Some? ==>
      |r.value| == |v.items| && forall k :: 0 <= k < |v.items| ==> r.value[k] == v.items[k].s
    ensures v.JString? ==> r.Some? && |r.value| == |v.s| && forall k :: 0 <= k < |v.s| ==> r.value[k] == [v.s[k]]
    ensures !v.JArray? && !v.JString? ==> r.None?
  {
    match v
    case JArray(items) => ReadAll(items, ReadText)
    case JString(s) => Some(seq(|s|, k requires 0 <= k < |s| => [s[k]]))
    case _ => None
  }

  /** The hobbies value, given to add_run as one run, whose text python-docx
      appends piece by piece: the characters of a string or the items of a
      list, which must be strings. Python raises on other truthy values; an
      object, whose keys python-docx would write, is one of them in this
      model. */
  function ReadHobbies(data: map<string, Json>): (r: Option<seq<string>>)
    ensures "hobbies" !in data || !Truthy(data["hobbies"]) ==> r == Some([])
    ensures "hobbies" in data && Truthy(data["hobbies"]) ==> r == ReadTextList(data["hobbies"])
  {
    if "hobbies" !in data || !Truthy(data["hobbies"]) then Some([])
    else ReadTextList(data["hobbies"])
  }

  const TextKeys: seq<string> := ["name", "email", "phone", "location", "summary"]

  /** The payload as the layout code reads it, or None when a value it reads
      has a shape that makes Python raise. */
  function Read(data: map<string, Json>): (r: Option<Resume>)
    ensures r.Some? <==>
      && "name" in data && data["name"].JString? && "email" in data && data["email"].JString?
      && "phone" in data && data["phone"].JString? && "location" in data && data["location"].JString?
      && "summary" in data && data["summary"].JString?
      && "technicalSkills" in data && ReadTextList(data["technicalSkills"]).Some?
      && "softSkills" in data && ReadTextList(data["softSkills"]).Some?
      && "experience" in data && ReadEntries(data["experience"], ReadExperience).Some?
      && ReadSection(data, "education", ReadEducation).Some?
      && ReadSection(data, "projects", ReadProject).Some?
      && ReadSection(data, "certifications", ReadCertification).Some?
      && ReadSection(data, "achievements", ReadAchievement).Some?
      && ReadSection(data, "activities", ReadActivity).Some?
      && ReadSection(data, "languages", ReadLanguage).Some?
      && ReadHobbies(data).Some?
    ensures r.Some? ==>
      && "technicalSkills" in data && ReadTextList(data["technicalSkills"]) == Some(r.value.technicalSkills)
      && "softSkills" in data && ReadTextList(data["softSkills"]) == Some(r.value.softSkills)
      && "experience" in data && ReadEntries(data["experience"], ReadExperience) == Some(r.value.experience)
      && ReadSection(data, "education", ReadEducation) == Some(r.value.education)
      && ReadSection(data, "projects", ReadProject) == Some(r.value.projects)
      && ReadSection(data, "certifications", ReadCertification) == Some(r.value.certifications)
      && ReadSection(data, "achievements", ReadAchievement) == Some(r.value.achievements)
      && ReadSection(data, "activities", ReadActivity) == Some(r.value.activities)
      && ReadSection(data, "languages", ReadLanguage) == Some(r.value.languages)
      && ReadHobbies(data) == Some(r.value.hobbies)
    ensures r.Some? ==>
      && Text(data, "name") == Some(r.value.name) && Text(data, "email") == Some(r.value.email)
      && Text(data, "phone") == Some(r.value.phone) && Text(data, "location") == Some(r.value.location)
      && Text(data, "summary") == Some(r.value.summary)
  {
    if && Text(data, "name").Some? && Text(data, "email").Some? && Text(data, "phone").Some?
       && Text(data, "location").Some? && Text(data, "summary").Some?
       && "technicalSkills" in data && ReadTextList(data["technicalSkills"]).Some?
       && "softSkills" in data && ReadTextList(data["softSkills"]).Some?
       && "experience" in data && ReadEntries(data["experience"], ReadExperience).Some?
       && ReadSection(data, "education", ReadEducation).Some?
       && ReadSection(data, "projects", ReadProject).Some?
       && ReadSection(data, "certifications", ReadCertification).Some?
       && ReadSection(data, "achievements", ReadAchievement).Some?
       && ReadSection(data, "activities", ReadActivity).Some?
       && ReadSection(data, "languages", ReadLanguage).Some?
       && ReadHobbies(data).Some?
    then
      Some(Resume(
        Text(data, "name").value, Text(data, "email").value, Text(data, "phone").value,
        Text(data, "location").value, Text(data, "summary").value,
        ReadTextList(data["technicalSkills"]).value, ReadTextList(data["softSkills"]).value,
        ReadSection(data, "education", ReadEducation).value,
        ReadEntries(data["experience"], ReadExperience).value,
        ReadSection(data, "projects", ReadProject).value,
        ReadSection(data, "certifications", ReadCertification).value,
        ReadSection(data, "achievements", ReadAchievement).value,
        ReadSection(data, "activities", ReadActivity).value,
        ReadSection(data, "languages", ReadLanguage).value,
        ReadHobbies(data).value))
    else None
  }

  /** A read payload has one experience entry per list item, and each
      optional section is empty when absent or falsy and has one entry per
      item when it is a list; a text field that is not a string fails the
      read. */
  lemma ReadShapes(data: map<string, Json>)
    ensures forall key :: key in TextKeys && key in data && !data[key].JString? ==> Read(data).None?
    ensures Read(data).Some? && data["experience"].JArray? ==>
      |Read(data).value.experience| == |data["experience"].items|
    ensures Read(data).Some? ==>
      && SectionMatches(data, "education", Read(data).value.education)
      && SectionMatches(data, "projects", Read(data).value.projects)
      && SectionMatches(data, "certifications", Read(data).value.certifications)
      && SectionMatches(data, "achievements", Read(data).value.achievements)
      && SectionMatches(data, "activities", Read(data).value.activities)
      && SectionMatches(data, "languages", Read(data).value.languages)
  {
  }

  /** data.get('style', {}), which must be an object. */
  function StyleOf(data: map<string, Json>): Option<map<string, Json>> {
    if "style" !in data then Some(map[])
    else if data["style"].JObject? then Some(data["style"].fields)
    else None
  }

  /** python-docx's font.name setter takes a string, or None to clear the
      name, and raises TypeError for anything else. */
  predicate FontAccepted(font: Json) {
    font.JString? || font.JNull?
  }

  // ---------------------------------------------------------------------
  // XML characters

  /** A character XML 1.0 allows, which lxml requires of every run text and
      attribute value python-docx writes: no control character other than
      tab, line feed and carriage return, and neither U+FFFE nor U+FFFF. */
  predicate XmlChar(c: char) {
    ' ' <= c <= '\U{FFFD}' || c > '\U{FFFF}' || c == '\t' || c == '\n' || c == '\r'
  }

  predicate XmlText(s: string) {
    forall c :: c in s ==> XmlChar(c)
  }

  predicate XmlLines(lines: seq<string>) {
    forall p :: p in lines ==> XmlText(p)
  }

  /** The font name lxml is given as an attribute value, when it is a string. */
  predicate XmlFont(font: Json) {
    font.JString? ==> XmlText(font.s)
  }

  /** Every field the document prints, which excludes the links. */
  predicate XmlEducation(e: Draft.Education) {
    XmlText(e.school) && XmlText(e.degree) && XmlText(e.graduationDate) && XmlText(e.gpa)
  }

  predicate XmlExperience(x: Draft.Experience) {
    XmlText(x.company) && XmlText(x.title) && XmlText(x.dates) && XmlText(x.description)
  }

  predicate XmlProject(p: Draft.Project) {
    XmlText(p.title) && XmlText(p.technologies) && XmlText(p.description)
  }

  predicate XmlCertification(c: Draft.Certification) {
    XmlText(c.name) && XmlText(c.issuer) && XmlText(c.date)
  }

  predicate XmlAchievement(a: Draft.Achievement) {
    XmlText(a.title) && XmlText(a.date) && XmlText(a.description)
  }

  predicate XmlActivity(a: Draft.Activity) {
    XmlText(a.title) && XmlText(a.organization) && XmlText(a.date) && XmlText(a.description)
  }

  predicate XmlLanguage(l: Draft.Language) {
    XmlText(l.name) && XmlText(l.proficiency)
  }

  /** Every text of the record that the document prints is XML text. */
  predicate XmlResume(v: Resume) {
    && XmlText(v.name) && XmlText(v.email) && XmlText(v.phone) && XmlText(v.location) && XmlText(v.summary)
    && XmlLines(v.technicalSkills) && XmlLines(v.softSkills)
    && (forall e :: e in v.education ==> XmlEducation(e))
    && (forall x :: x in v.experience ==> XmlExperience(x))
    && (forall p :: p in v.projects ==> XmlProject(p))
    && (forall c :: c in v.certifications ==> XmlCertification(c))
    && (forall a :: a in v.achievements ==> XmlAchievement(a))
    && (forall a :: a in v.activities ==> XmlActivity(a))
    && (forall l :: l in v.languages ==> XmlLanguage(l))
    && XmlLines(v.hobbies)
  }

  // ---------------------------------------------------------------------
  // The paragraphs

  function ContactLine(email: string, phone: string, location: string): string {
    email + " | " + phone + " | " + location
  }

  /** The date_gpa list: each part only when its value is non-empty. */
  function DateGpa(e: Draft.Education): seq<string> {
    (if e.graduationDate != "" then ["Graduation: " + e.graduationDate] else [])
    + (if e.gpa != "" then ["GPA: " + e.gpa] else [])
  }

  function EducationLines(e: Draft.Education): seq<string> {
    [if e.degree != "" then e.school + " - " + e.degree else e.school]
    + (if e.graduationDate != "" || e.gpa != "" then [Join(" | ", DateGpa(e))] else [])
  }

  /** The title paragraph of an experience entry: the title, then the run
      " | dates" when there are dates. */
  function TitleLine(x: Draft.Experience): string {
    if x.dates != "" then x.title + (" | " + x.dates) else x.title
  }

  function ExperienceLines(x: Draft.Experience): seq<string> {
    [x.company, TitleLine(x)] + (if x.description != "" then [x.description] else [])
  }

  function ProjectLines(p: Draft.Project): seq<string> {
    [p.title]
    + (if p.technologies != "" then ["Technologies: " + p.technologies] else [])
    + (if p.description != "" then [p.description] else [])
  }

  /** `text`, then the run " (date)" when there is a date. */
  function WithDate(text: string, date: string): string {
    if date != "" then text + (" (" + date + ")") else text
  }

  function CertificationLines(c: Draft.Certification): seq<string> {
    [WithDate(c.name + " - " + c.issuer, c.date)]
  }

  function AchievementLines(a: Draft.Achievement): seq<string> {
    [WithDate(a.title, a.date)] + (if a.description != "" then [a.description] else [])
  }

  function ActivityLines(a: Draft.Activity): seq<string> {
    [WithDate(a.title + " - " + a.organization, a.date)] + (if a.description != "" then [a.description] else [])
  }

  function LanguageText(l: Draft.Language): string {
    l.name + " (" + l.proficiency + ")"
  }

  function LanguageTexts(ls: seq<Draft.Language>): (r: seq<string>)
    ensures |r| == |ls| && forall k :: 0 <= k < |ls| ==> r[k] == LanguageText(ls[k])
  {
    if ls == [] then [] else [LanguageText(ls[0])] + LanguageTexts(ls[1..])
  }

  /** The opening paragraphs: name, contact line, a blank spacer, summary and
      the two skill lines. */
  function Opening(v: Resume): seq<string> {
    [ Upper(v.name),
      ContactLine(v.email, v.phone, v.location),
      "",
      "Professional Summary",
      v.summary,
      "Technical & Soft Skills",
      "Technical Skills: " + Join(", ", v.technicalSkills),
      "Soft Skills: " + Join(", ", v.softSkills) ]
  }

  /** A section that is written only when its list is non-empty. */
  function Optional<T>(heading: string, f: T -> seq<string>, items: seq<T>): seq<string> {
    if items == [] then [] else [heading] + FlatMap(f, items)
  }

  /** The education section, if any, and the experience section. */
  function Middle(v: Resume): seq<string> {
    Optional("Education", EducationLines, v.education)
    + (["Professional Experience"] + FlatMap(ExperienceLines, v.experience))
  }

  /** The text python-docx writes for one piece of the hobbies run: a piece
      found in "\r\n" (Python's `in` on strings: "", "\r", "\n" or
      "\r\n") becomes a line break, shown as "\n" in the paragraph's text,
      and any other piece is written as it is. */
  function HobbyText(h: string): string {
    if h == "" || h == "\r" || h == "\n" || h == "\r\n" then "\n" else h
  }

  /** The hobbies paragraph: the pieces' texts one after the other. */
  function HobbiesLine(hobbies: seq<string>): string
  {
    if hobbies == [] then "" else HobbyText(hobbies[0]) + HobbiesLine(hobbies[1..])
  }

  /** Each piece is written after the pieces before it, with no separator. */
  lemma {:induction false} HobbiesLineSnoc(hobbies: seq<string>, h: string)
    ensures HobbiesLine(hobbies + [h]) == HobbiesLine(hobbies) + HobbyText(h)
    decreases |hobbies|
  {
    if hobbies != [] {
      assert (hobbies + [h])[1..] == hobbies[1..] + [h];
      HobbiesLineSnoc(hobbies[1..], h);
    }
  }

  /** Without pieces that become breaks, the paragraph is the pieces joined
      with nothing between them. */
  lemma {:induction false} HobbiesLineJoin(hobbies: seq<string>)
    requires forall k :: 0 <= k < |hobbies| ==> HobbyText(hobbies[k]) == hobbies[k]
    ensures HobbiesLine(hobbies) == Join("", hobbies)
    decreases |hobbies|
  {
    if |hobbies| == 1 {
      assert HobbiesLine(hobbies[1..]) == "";
    } else if |hobbies| > 1 {
      HobbiesLineJoin(hobbies[1..]);
      assert hobbies[0] + "" + Join("", hobbies[1..]) == hobbies[0] + Join("", hobbies[1..]);
    }
  }

  /** A hobbies string is written character by character: each '\r' becomes
      a line break, read back as '\n', and every other character is kept. */
  lemma {:induction false} HobbiesBreaks(s: string)
    ensures |HobbiesLine(ReadTextList(JString(s)).value)| == |s|
    ensures forall k :: 0 <= k < |s| ==>
      HobbiesLine(ReadTextList(JString(s)).value)[k] == if s[k] == '\r' then '\n' else s[k]
    decreases |s|
  {
    if s != [] {
      var pieces := ReadTextList(JString(s)).value;
      var rest := ReadTextList(JString(s[1..])).value;
      HobbiesBreaks(s[1..]);
      assert pieces[1..] == rest;
      assert pieces[0] == [s[0]];
      var head := if s[0] == '\r' then '\n' else s[0];
      assert HobbyText(pieces[0]) == [head];
      assert HobbiesLine(pieces) == [head] + HobbiesLine(rest);
    }
  }

  /** A hobbies string with no '\r' is written as it is. */
  lemma HobbiesTextKept(s: string)
    requires forall k :: 0 <= k < |s| ==> s[k] != '\r'
    ensures HobbiesLine(ReadTextList(JString(s)).value) == s
  {
    var pieces := ReadTextList(JString(s)).value;
    forall k | 0 <= k < |pieces|
      ensures HobbyText(pieces[k]) == pieces[k]
    {
      assert pieces[k] == [s[k]];
    }
    HobbiesLineJoin(pieces);
    JoinChars(pieces, s);
  }

  /** The projects, certifications and achievements sections, each only
      when non-empty. */
  function Awards(v: Resume): seq<string> {
    Optional("Projects", ProjectLines, v.projects)
    + (Optional("Certifications / Online Courses", CertificationLines, v.certifications)
    + Optional("Achievements / Awards", AchievementLines, v.achievements))
  }

  /** The activities, languages and hobbies sections, each only when
      non-empty. */
  function Closing(v: Resume): seq<string> {
    Optional("Extra-curricular / Volunteer Activities", ActivityLines, v.activities)
    + ((if v.languages == [] then [] else ["Languages Known", Join(" | ", LanguageTexts(v.languages))])
    + (if v.hobbies == [] then [] else ["Hobbies / Interests", HobbiesLine(v.hobbies)]))
  }

  /** Every paragraph of the document, in order. */
  function Document(v: Resume): seq<string> {
    Opening(v) + (Middle(v) + (Awards(v) + Closing(v)))
  }

  // ---------------------------------------------------------------------
  // Which documents lxml accepts

  lemma XmlConcat(a: string, b: string)
    ensures XmlText(a + b) <==> XmlText(a) && XmlText(b)
  {
    if XmlText(a + b) {
      forall c | c in a ensures XmlChar(c) { assert c in a + b; }
      forall c | c in b ensures XmlChar(c) { assert c in a + b; }
    }
  }

  lemma XmlLinesConcat(a: seq<string>, b: seq<string>)
    ensures XmlLines(a + b) <==> XmlLines(a) && XmlLines(b)
  {
    if XmlLines(a + b) {
      forall p | p in a ensures XmlText(p) { assert p in a + b; }
      forall p | p in b ensures XmlText(p) { assert p in a + b; }
    }
  }

  /** The separators and labels the layout code writes. */
  lemma XmlSeparators()
    ensures XmlText(" | ") && XmlText(" - ") && XmlText(" (") && XmlText(")") && XmlText(", ")
  {
  }

  lemma XmlBreaks()
    ensures XmlText("\n") && XmlText("\r\n")
  {
  }

  lemma XmlEntryLabels()
    ensures XmlText("Graduation: ") && XmlText("GPA: ") && XmlText("Technologies: ")
  {
  }

  lemma XmlSkillLabels()
    ensures XmlText("Technical Skills: ") && XmlText("Soft Skills: ")
  {
  }

  lemma XmlOpeningHeadings()
    ensures XmlText("Professional Summary") && XmlText("Technical & Soft Skills")
  {
  }

  lemma XmlMiddleHeadings()
    ensures XmlText("Education") && XmlText("Professional Experience") && XmlText("Projects")
  {
  }

  lemma XmlCertificationsHeading()
    ensures XmlText("Certifications / Online Courses")
  {
  }

  lemma XmlAchievementsHeading()
    ensures XmlText("Achievements / Awards")
  {
  }

  lemma XmlActivitiesHeading()
    ensures XmlText("Extra-curricular / Volunteer Activities")
  {
  }

  lemma XmlClosingHeadings()
    ensures XmlText("Languages Known") && XmlText("Hobbies / Interests")
  {
  }

  /** Upper-casing changes only letters, so it keeps and removes no
      character lxml refuses. */
  lemma XmlUpper(s: string)
    ensures XmlText(Upper(s)) <==> XmlText(s)
  {
    var u := Upper(s);
    if XmlText(s) {
      forall c | c in u ensures XmlChar(c) {
        var k :| 0 <= k < |u| && u[k] == c;
        assert s[k] in s;
      }
    }
    if XmlText(u) {
      forall c | c in s ensures XmlChar(c) {
        var k :| 0 <= k < |s| && s[k] == c;
        assert u[k] in u;
      }
    }
  }

  /** A join with an XML separator is XML text exactly when every part is. */
  lemma {:induction false} XmlJoin(sep: string, parts: seq<string>)
    requires XmlText(sep)
    ensures XmlText(Join(sep, parts)) <==> XmlLines(parts)
    decreases |parts|
  {
    if |parts| == 1 {
      assert parts == [parts[0]];
    } else if |parts| > 1 {
      XmlJoin(sep, parts[1..]);
      XmlConcat(parts[0], sep);
      XmlConcat(parts[0] + sep, Join(sep, parts[1..]));
      assert parts == [parts[0]] + parts[1..];
      XmlLinesConcat([parts[0]], parts[1..]);
    }
  }

  /** The hobbies paragraph is XML text exactly when every piece is. */
  lemma {:induction false} XmlHobbies(hobbies: seq<string>)
    ensures XmlText(HobbiesLine(hobbies)) <==> XmlLines(hobbies)
    decreases |hobbies|
  {
    if hobbies != [] {
      XmlHobbies(hobbies[1..]);
      XmlBreaks();
      assert XmlText(HobbyText(hobbies[0])) <==> XmlText(hobbies[0]);
      XmlConcat(HobbyText(hobbies[0]), HobbiesLine(hobbies[1..]));
      assert hobbies == [hobbies[0]] + hobbies[1..];
      XmlLinesConcat([hobbies[0]], hobbies[1..]);
    }
  }

  /** The paragraphs of a list of entries are XML text exactly when those
      of every entry are. */
  lemma {:induction false} XmlFlatMap<T>(f: T -> seq<string>, items: seq<T>)
    ensures XmlLines(FlatMap(f, items)) <==> forall x :: x in items ==> XmlLines(f(x))
    decreases |items|
  {
    if items != [] {
      XmlFlatMap(f, items[1..]);
      XmlLinesConcat(f(items[0]), FlatMap(f, items[1..]));
      assert items == [items[0]] + items[1..];
    }
  }

  /** A section with an XML heading is XML text exactly when the paragraphs
      of every entry are. */
  lemma XmlOptional<T>(heading: string, f: T -> seq<string>, items: seq<T>)
    requires XmlText(heading)
    ensures XmlLines(Optional(heading, f, items)) <==> forall x :: x in items ==> XmlLines(f(x))
  {
    if items != [] {
      XmlFlatMap(f, items);
      XmlLinesConcat([heading], FlatMap(f, items));
    }
  }

  lemma XmlWithDate(text: string, date: string)
    ensures XmlText(WithDate(text, date)) <==> XmlText(text) && XmlText(date)
  {
    if date != "" {
      XmlSeparators();
      XmlConcat(" (", date);
      XmlConcat(" (" + date, ")");
      XmlConcat(text, " (" + date + ")");
    }
  }

  lemma XmlDash(a: string, b: string)
    ensures XmlText(a + " - " + b) <==> XmlText(a) && XmlText(b)
  {
    XmlSeparators();
    XmlConcat(a, " - ");
    XmlConcat(a + " - ", b);
  }

  /** The graduation and GPA paragraph is XML text exactly when both values are. */
  lemma XmlDateGpa(e: Draft.Education)
    ensures XmlText(Join(" | ", DateGpa(e))) <==> XmlText(e.graduationDate) && XmlText(e.gpa)
  {
    XmlSeparators();
    XmlEntryLabels();
    var g := if e.graduationDate != "" then ["Graduation: " + e.graduationDate] else [];
    var p := if e.gpa != "" then ["GPA: " + e.gpa] else [];
    XmlConcat("Graduation: ", e.graduationDate);
    XmlConcat("GPA: ", e.gpa);
    XmlLinesConcat(g, p);
    XmlJoin(" | ", DateGpa(e));
  }

  /** An entry's paragraphs are XML text exactly when every field it prints
      is. */
  lemma XmlEducationLines(e: Draft.Education)
    ensures XmlLines(EducationLines(e)) <==> XmlEducation(e)
  {
    var first := if e.degree != "" then e.school + " - " + e.degree else e.school;
    if e.degree != "" { XmlDash(e.school, e.degree); }
    XmlDateGpa(e);
    var rest := if e.graduationDate != "" || e.gpa != "" then [Join(" | ", DateGpa(e))] else [];
    XmlLinesConcat([first], rest);
  }

  lemma XmlExperienceLines(x: Draft.Experience)
    ensures XmlLines(ExperienceLines(x)) <==> XmlExperience(x)
  {
    if x.dates != "" {
      XmlSeparators();
      XmlConcat(" | ", x.dates);
      XmlConcat(x.title, " | " + x.dates);
    }
    XmlLinesConcat([x.company, TitleLine(x)], if x.description != "" then [x.description] else []);
  }

  lemma XmlProjectLines(p: Draft.Project)
    ensures XmlLines(ProjectLines(p)) <==> XmlProject(p)
  {
    XmlEntryLabels();
    XmlConcat("Technologies: ", p.technologies);
    var t := if p.technologies != "" then ["Technologies: " + p.technologies] else [];
    var d := if p.description != "" then [p.description] else [];
    XmlLinesConcat([p.title], t);
    XmlLinesConcat([p.title] + t, d);
  }

  lemma XmlCertificationLines(c: Draft.Certification)
    ensures XmlLines(CertificationLines(c)) <==> XmlCertification(c)
  {
    XmlDash(c.name, c.issuer);
    XmlWithDate(c.name + " - " + c.issuer, c.date);
  }

  lemma XmlAchievementLines(a: Draft.Achievement)
    ensures XmlLines(AchievementLines(a)) <==> XmlAchievement(a)
  {
    XmlWithDate(a.title, a.date);
    XmlLinesConcat([WithDate(a.title, a.date)], if a.description != "" then [a.description] else []);
  }

  lemma XmlActivityLines(a: Draft.Activity)
    ensures XmlLines(ActivityLines(a)) <==> XmlActivity(a)
  {
    XmlDash(a.title, a.organization);
    XmlWithDate(a.title + " - " + a.organization, a.date);
    XmlLinesConcat([WithDate(a.title + " - " + a.organization, a.date)], if a.description != "" then [a.description] else []);
  }

  lemma XmlLanguageTexts(ls: seq<Draft.Language>)
    ensures XmlLines(LanguageTexts(ls)) <==> forall l :: l in ls ==> XmlLanguage(l)
  {
    XmlSeparators();
    var texts := LanguageTexts(ls);
    forall k | 0 <= k < |ls|
      ensures XmlText(texts[k]) <==> XmlLanguage(ls[k])
    {
      XmlConcat(ls[k].name, " (");
      XmlConcat(ls[k].name + " (", ls[k].proficiency);
      XmlConcat(ls[k].name + " (" + ls[k].proficiency, ")");
    }
    if XmlLines(texts) {
      forall l | l in ls ensures XmlLanguage(l) {
        var k :| 0 <= k < |ls| && ls[k] == l;
        assert texts[k] in texts;
      }
    }
    if forall l :: l in ls ==> XmlLanguage(l) {
      forall t | t in texts ensures XmlText(t) {
        var k :| 0 <= k < |texts| && texts[k] == t;
        assert ls[k] in ls;
      }
    }
  }

  lemma XmlContact(email: string, phone: string, location: string)
    ensures XmlText(ContactLine(email, phone, location)) <==> XmlText(email) && XmlText(phone) && XmlText(location)
  {
    XmlSeparators();
    XmlConcat(email, " | ");
    XmlConcat(email + " | ", phone);
    XmlConcat(email + " | " + phone, " | ");
    XmlConcat(email + " | " + phone + " | ", location);
  }

  lemma XmlSkillsLine(lead: string, skills: seq<string>)
    requires XmlText(lead)
    ensures XmlText(lead + Join(", ", skills)) <==> XmlLines(skills)
  {
    XmlSeparators();
    XmlJoin(", ", skills);
    XmlConcat(lead, Join(", ", skills));
  }

  lemma XmlOpening(v: Resume)
    ensures XmlLines(Opening(v)) <==>
      && XmlText(v.name) && XmlText(v.email) && XmlText(v.phone) && XmlText(v.location) && XmlText(v.summary)
      && XmlLines(v.technicalSkills) && XmlLines(v.softSkills)
  {
    XmlSkillLabels();
    XmlOpeningHeadings();
    XmlUpper(v.name);
    XmlContact(v.email, v.phone, v.location);
    XmlSkillsLine("Technical Skills: ", v.technicalSkills);
    XmlSkillsLine("Soft Skills: ", v.softSkills);
    assert XmlText("");
  }

  lemma XmlMiddle(v: Resume)
    ensures XmlLines(Middle(v)) <==>
      (forall e :: e in v.education ==> XmlEducation(e)) && (forall x :: x in v.experience ==> XmlExperience(x))
  {
    XmlMiddleHeadings();
    forall e ensures XmlLines(EducationLines(e)) <==> XmlEducation(e) {
      XmlEducationLines(e);
    }
    forall x ensures XmlLines(ExperienceLines(x)) <==> XmlExperience(x) {
      XmlExperienceLines(x);
    }
    XmlOptional("Education", EducationLines, v.education);
    XmlFlatMap(ExperienceLines, v.experience);
    XmlLinesConcat(["Professional Experience"], FlatMap(ExperienceLines, v.experience));
    XmlLinesConcat(Optional("Education", EducationLines, v.education),
      ["Professional Experience"] + FlatMap(ExperienceLines, v.experience));
  }

  lemma XmlAwards(v: Resume)
    ensures XmlLines(Awards(v)) <==>
      && (forall p :: p in v.projects ==> XmlProject(p))
      && (forall c :: c in v.certifications ==> XmlCertification(c))
      && (forall a :: a in v.achievements ==> XmlAchievement(a))
  {
    XmlMiddleHeadings();
    XmlCertificationsHeading();
    XmlAchievementsHeading();
    forall p ensures XmlLines(ProjectLines(p)) <==> XmlProject(p) {
      XmlProjectLines(p);
    }
    forall c ensures XmlLines(CertificationLines(c)) <==> XmlCertification(c) {
      XmlCertificationLines(c);
    }
    forall a ensures XmlLines(AchievementLines(a)) <==> XmlAchievement(a) {
      XmlAchievementLines(a);
    }
    var projects := Optional("Projects", ProjectLines, v.projects);
    var certifications := Optional("Certifications / Online Courses", CertificationLines, v.certifications);
    var achievements := Optional("Achievements / Awards", AchievementLines, v.achievements);
    XmlOptional("Projects", ProjectLines, v.projects);
    XmlOptional("Certifications / Online Courses", CertificationLines, v.certifications);
    XmlOptional("Achievements / Awards", AchievementLines, v.achievements);
    XmlLinesConcat(certifications, achievements);
    XmlLinesConcat(projects, certifications + achievements);
  }

  lemma XmlClosing(v: Resume)
    ensures XmlLines(Closing(v)) <==>
      && (forall a :: a in v.activities ==> XmlActivity(a))
      && (forall l :: l in v.languages ==> XmlLanguage(l))
      && XmlLines(v.hobbies)
  {
    XmlSeparators();
    XmlActivitiesHeading();
    XmlClosingHeadings();
    forall a ensures XmlLines(ActivityLines(a)) <==> XmlActivity(a) {
      XmlActivityLines(a);
    }
    var activities := Optional("Extra-curricular / Volunteer Activities", ActivityLines, v.activities);
    XmlOptional("Extra-curricular / Volunteer Activities", ActivityLines, v.activities);
    var languages := if v.languages == [] then [] else ["Languages Known", Join(" | ", LanguageTexts(v.languages))];
    XmlLanguageTexts(v.languages);
    XmlJoin(" | ", LanguageTexts(v.languages));
    var hobbies := if v.hobbies == [] then [] else ["Hobbies / Interests", HobbiesLine(v.hobbies)];
    XmlHobbies(v.hobbies);
    XmlLinesConcat(languages, hobbies);
    XmlLinesConcat(activities, languages + hobbies);
  }

  /** lxml accepts the document exactly when every text of the record that
      the document prints is XML text: the fixed headings and separators
      always are. */
  lemma XmlDocument(v: Resume)
    ensures XmlLines(Document(v)) <==> XmlResume(v)
  {
    XmlOpening(v);
    XmlMiddle(v);
    XmlAwards(v);
    XmlClosing(v);
    XmlLinesConcat(Awards(v), Closing(v));
    XmlLinesConcat(Middle(v), Awards(v) + Closing(v));
    XmlLinesConcat(Opening(v), Middle(v) + (Awards(v) + Closing(v)));
  }

  /** What generate_resume does with a payload: the presence check, the
      style lookup, then the document. The payload is rejected for a missing
      key before anything else is looked at, and only for a missing key. */
  function Generate(data: map<string, Json>): (r: Result<seq<string>, GenerateError>)
    ensures r == Failure(MissingRequiredFields) <==> exists f :: f in Backend.RequiredKeys && f !in data
    ensures r.Success? ==> Read(data).Some? && r.value == Document(Read(data).value)
    ensures r.Success? <==>
      && Backend.CheckRequiredKeys(data) == Pass
      && StyleOf(data).Some? && Backend.GetStyleConfig(StyleOf(data).value).Success?
      && FontAccepted(Backend.GetStyleConfig(StyleOf(data).value).value.font)
      && XmlFont(Backend.GetStyleConfig(StyleOf(data).value).value.font)
      && Read(data).Some? && XmlLines(Document(Read(data).value))
  {
    if Backend.CheckRequiredKeys(data) != Pass then Failure(MissingRequiredFields)
    else if StyleOf(data).None? then Failure(Malformed)
    else if Backend.GetStyleConfig(StyleOf(data).value).Failure? then
      Failure(BadStyle(Backend.GetStyleConfig(StyleOf(data).value).error))
    else if !FontAccepted(Backend.GetStyleConfig(StyleOf(data).value).value.font) then Failure(Malformed)
    else if !XmlFont(Backend.GetStyleConfig(StyleOf(data).value).value.font) then Failure(NotXmlCompatible)
    else if Read(data).None? then Failure(Malformed)
    else if !XmlLines(Document(Read(data).value)) then Failure(NotXmlCompatible)
    else Success(Document(Read(data).value))
  }

  /** With the keys present, a payload is refused for its style exactly
      when the style lookup fails, and with that lookup's error. */
  lemma GenerateStyleFailure(data: map<string, Json>)
    ensures Generate(data).Failure? && Generate(data).error.BadStyle? <==>
      && Backend.CheckRequiredKeys(data) == Pass
      && StyleOf(data).Some? && Backend.GetStyleConfig(StyleOf(data).value).Failure?
    ensures Generate(data).Failure? && Generate(data).error.BadStyle? ==> Generate(data).error.cause == Backend.GetStyleConfig(StyleOf(data).value).error
  {
  }

  /** A payload whose keys and style pass is refused by lxml exactly when
      the font name, or a text of the record that the document prints, has
      a character XML does not allow; the font is set first, before the
      payload is read. */
  lemma GenerateRefusesNonXml(data: map<string, Json>)
    ensures Generate(data) == Failure(NotXmlCompatible) <==>
      && Backend.CheckRequiredKeys(data) == Pass
      && StyleOf(data).Some? && Backend.GetStyleConfig(StyleOf(data).value).Success?
      && FontAccepted(Backend.GetStyleConfig(StyleOf(data).value).value.font)
      && (|| !XmlFont(Backend.GetStyleConfig(StyleOf(data).value).value.font)
          || (Read(data).Some? && !XmlResume(Read(data).value)))
  {
    if Read(data).Some? {
      XmlDocument(Read(data).value);
    }
  }

  // ---------------------------------------------------------------------
  // generate_resume, appending paragraphs as the Python code does

  /** The paragraphs of one education entry: the school line, then the
      details line when there is a graduation date or a GPA. */
  method AppendEducation(doc: seq<string>, edu: Draft.Education) returns (out: seq<string>)
    ensures out == doc + EducationLines(edu)
  {
    out := doc;
    var para := edu.school;
    if edu.degree != "" {
      para := para + " - " + edu.degree;
    }
    out := out + [para];
    if edu.graduationDate != "" || edu.gpa != "" {
      var dateGpa: seq<string> := [];
      if edu.graduationDate != "" {
        dateGpa := dateGpa + ["Graduation: " + edu.graduationDate];
      }
      if edu.gpa != "" {
        dateGpa := dateGpa + ["GPA: " + edu.gpa];
      }
      out := out + [Join(" | ", dateGpa)];
    }
  }

  method AddEducation(doc: seq<string>, items: seq<Draft.Education>) returns (out: seq<string>)
    ensures out == doc + FlatMap(EducationLines, items)
  {
    out := doc;
    var i := 0;
    while i < |items|
      invariant 0 <= i <= |items|
      invariant out == doc + FlatMap(EducationLines, items[..i])
    {
      var edu := items[i];
      out := AppendEducation(out, edu);
      assert items[..i + 1] == items[..i] + [edu];
      FlatMapSnoc(EducationLines, items[..i], edu);
      i := i + 1;
    }
    assert items[..i] == items;
  }

  /** The paragraphs of one experience entry: the company, the title with
      its dates run, then the description when there is one. */
  method AppendExperience(doc: seq<string>, exp: Draft.Experience) returns (out: seq<string>)
    ensures out == doc + ExperienceLines(exp)
  {
    out := doc;
    out := out + [exp.company];
    var title := exp.title;
    if exp.dates != "" {
      title := title + (" | " + exp.dates);
    }
    out := out + [title];
    if exp.description != "" {
      out := out + [exp.description];
    }
  }

  method AddExperience(doc: seq<string>, items: seq<Draft.Experience>) returns (out: seq<string>)
    ensures out == doc + FlatMap(ExperienceLines, items)
  {
    out := doc;
    var i := 0;
    while i < |items|
      invariant 0 <= i <= |items|
      invariant out == doc + FlatMap(ExperienceLines, items[..i])
    {
      var exp := items[i];
      out := AppendExperience(out, exp);
      assert items[..i + 1] == items[..i] + [exp];
      FlatMapSnoc(ExperienceLines, items[..i], exp);
      i := i + 1;
    }
    assert items[..i] == items;
  }

  /** The paragraphs of one project: the title, then the technologies and
      the description, each only when non-empty. */
  method AppendProject(doc: seq<string>, project: Draft.Project) returns (out: seq<string>)
    ensures out == doc + ProjectLines(project)
  {
    out := doc + [project.title];
    if project.technologies != "" {
      out := out + ["Technologies: " + project.technologies];
    }
    if project.description != "" {
      out := out + [project.description];
    }
  }

  method AddProjects(doc: seq<string>, items: seq<Draft.Project>) returns (out: seq<string>)
    ensures out == doc + FlatMap(ProjectLines, items)
  {
    out := doc;
    var i := 0;
    while i < |items|
      invariant 0 <= i <= |items|
      invariant out == doc + FlatMap(ProjectLines, items[..i])
    {
      var project := items[i];
      out := AppendProject(out, project);
      assert items[..i + 1] == items[..i] + [project];
      FlatMapSnoc(ProjectLines, items[..i], project);
      i := i + 1;
    }
    assert items[..i] == items;
  }

  method AddCertifications(doc: seq<string>, items: seq<Draft.Certification>) returns (out: seq<string>)
    ensures out == doc + FlatMap(CertificationLines, items)
  {
    out := doc;
    var i := 0;
    while i < |items|
      invariant 0 <= i <= |items|
      invariant out == doc + FlatMap(CertificationLines, items[..i])
    {
      var cert := items[i];
      ghost var before := out;
      var para := cert.name + " - " + cert.issuer;
      if cert.date != "" {
        para := para + (" (" + cert.date + ")");
      }
      out := out + [para];
      assert out == before + CertificationLines(cert);
      assert items[..i + 1] == items[..i] + [cert];
      FlatMapSnoc(CertificationLines, items[..i], cert);
      i := i + 1;
    }
    assert items[..i] == items;
  }

  /** The paragraphs of one achievement: the title with its date run, then
      the description when there is one. */
  method AppendAchievement(doc: seq<string>, achievement: Draft.Achievement) returns (out: seq<string>)
    ensures out == doc + AchievementLines(achievement)
  {
    out := doc;
    var para := achievement.title;
    if achievement.date != "" {
      para := para + (" (" + achievement.date + ")");
    }
    out := out + [para];
    if achievement.description != "" {
      out := out + [achievement.description];
    }
  }

  method AddAchievements(doc: seq<string>, items: seq<Draft.Achievement>) returns (out: seq<string>)
    ensures out == doc + FlatMap(AchievementLines, items)
  {
    out := doc;
    var i := 0;
    while i < |items|
      invariant 0 <= i <= |items|
      invariant out == doc + FlatMap(AchievementLines, items[..i])
    {
      var achievement := items[i];
      out := AppendAchievement(out, achievement);
      assert items[..i + 1] == items[..i] + [achievement];
      FlatMapSnoc(AchievementLines, items[..i], achievement);
      i := i + 1;
    }
    assert items[..i] == items;
  }

  /** The paragraphs of one activity: title and organization with the date
      run, then the description when there is one. */
  method AppendActivity(doc: seq<string>, activity: Draft.Activity) returns (out: seq<string>)
    ensures out == doc + ActivityLines(activity)
  {
    out := doc;
    var para := activity.title + " - " + activity.organization;
    if activity.date != "" {
      para := para + (" (" + activity.date + ")");
    }
    out := out + [para];
    if activity.description != "" {
      out := out + [activity.description];
    }
  }

  method AddActivities(doc: seq<string>, items: seq<Draft.Activity>) returns (out: seq<string>)
    ensures out == doc + FlatMap(ActivityLines, items)
  {
    out := doc;
    var i := 0;
    while i < |items|
      invariant 0 <= i <= |items|
      invariant out == doc + FlatMap(ActivityLines, items[..i])
    {
      var activity := items[i];
      out := AppendActivity(out, activity);
      assert items[..i + 1] == items[..i] + [activity];
      FlatMapSnoc(ActivityLines, items[..i], activity);
      i := i + 1;
    }
    assert items[..i] == items;
  }

  /** The languages paragraph: " | " before every entry but the first, then
      "name (proficiency)". */
  method LanguagesLine(langs: seq<Draft.Language>) returns (line: string)
    ensures line == Join(" | ", LanguageTexts(langs))
  {
    line := "";
    var i := 0;
    while i < |langs|
      invariant 0 <= i <= |langs|
      invariant line == Join(" | ", LanguageTexts(langs[..i]))
    {
      if i > 0 {
        line := line + " | ";
      }
      line := line + LanguageText(langs[i]);
      assert LanguageTexts(langs[..i + 1]) == LanguageTexts(langs[..i]) + [LanguageText(langs[i])];
      JoinSnoc(" | ", LanguageTexts(langs[..i]), LanguageText(langs[i]));
      i := i + 1;
    }
    assert langs[..i] == langs;
  }

  /** generate_resume from the parsed request body to the paragraphs saved in
      resume.docx, or the error answered with status 500. */
  method GenerateResume(data: map<string, Json>) returns (r: Result<seq<string>, GenerateError>)
    ensures r == Generate(data)
  {
    if Backend.CheckRequiredKeys(data) != Pass {
      return Failure(MissingRequiredFields);
    }
    var style := StyleOf(data);
    if style.None? {
      return Failure(Malformed);
    }
    var config := Backend.GetStyleConfig(style.value);
    if config.Failure? {
      return Failure(BadStyle(config.error));
    }
    if !FontAccepted(config.value.font) {
      return Failure(Malformed);
    }
    if !XmlFont(config.value.font) {
      return Failure(NotXmlCompatible);
    }
    var read := Read(data);
    if read.None? {
      return Failure(Malformed);
    }
    var doc := WriteDocument(read.value);
    if !XmlLines(doc) {
      return Failure(NotXmlCompatible);
    }
    return Success(doc);
  }

  /** The paragraphs generate_resume adds once the checks have passed. */
  method WriteDocument(v: Resume) returns (doc: seq<string>)
    ensures doc == Document(v)
  {
    doc := WriteOpening(v);
    doc := WriteMiddle(doc, v);
    doc := WriteAwards(doc, v);
    doc := WriteClosing(doc, v);
  }

  method WriteOpening(v: Resume) returns (doc: seq<string>)
    ensures doc == Opening(v)
  {
    doc := [];
    doc := doc + [Upper(v.name)];
    doc := doc + [ContactLine(v.email, v.phone, v.location)];
    doc := doc + [""];
    doc := doc + ["Professional Summary"];
    doc := doc + [v.summary];
    doc := doc + ["Technical & Soft Skills"];
    doc := doc + ["Technical Skills: " + Join(", ", v.technicalSkills)];
    doc := doc + ["Soft Skills: " + Join(", ", v.softSkills)];
  }

  method WriteMiddle(doc: seq<string>, v: Resume) returns (out: seq<string>)
    ensures out == doc + Middle(v)
  {
    out := doc;
    if v.education != [] {
      out := AddEducation(out + ["Education"], v.education);
    }
    assert out == doc + Optional("Education", EducationLines, v.education);
    out := AddExperience(out + ["Professional Experience"], v.experience);
  }

  method WriteAwards(doc: seq<string>, v: Resume) returns (out: seq<string>)
    ensures out == doc + Awards(v)
  {
    out := WriteProjects(doc, v.projects);
    out := WriteCertifications(out, v.certifications);
    out := WriteAchievements(out, v.achievements);
    Regroup(doc, Optional("Projects", ProjectLines, v.projects),
      Optional("Certifications / Online Courses", CertificationLines, v.certifications),
      Optional("Achievements / Awards", AchievementLines, v.achievements));
  }

  method WriteProjects(doc: seq<string>, items: seq<Draft.Project>) returns (out: seq<string>)
    ensures out == doc + Optional("Projects", ProjectLines, items)
  {
    out := doc;
    if items != [] {
      out := AddProjects(out + ["Projects"], items);
    }
  }

  method WriteCertifications(doc: seq<string>, items: seq<Draft.Certification>) returns (out: seq<string>)
    ensures out == doc + Optional("Certifications / Online Courses", CertificationLines, items)
  {
    out := doc;
    if items != [] {
      out := AddCertifications(out + ["Certifications / Online Courses"], items);
    }
  }

  method WriteAchievements(doc: seq<string>, items: seq<Draft.Achievement>) returns (out: seq<string>)
    ensures out == doc + Optional("Achievements / Awards", AchievementLines, items)
  {
    out := doc;
    if items != [] {
      out := AddAchievements(out + ["Achievements / Awards"], items);
    }
  }

  method WriteClosing(doc: seq<string>, v: Resume) returns (out: seq<string>)
    ensures out == doc + Closing(v)
  {
    out := doc;
    if v.activities != [] {
      out := AddActivities(out + ["Extra-curricular / Volunteer Activities"], v.activities);
    }
    ghost var activities := out;
    assert activities == doc + Optional("Extra-curricular / Volunteer Activities", ActivityLines, v.activities);
    if v.languages != [] {
      var line := LanguagesLine(v.languages);
      out := out + ["Languages Known"] + [line];
    }
    ghost var languages := out;
    assert languages == activities + (if v.languages == [] then [] else ["Languages Known", Join(" | ", LanguageTexts(v.languages))]);
    if v.hobbies != [] {
      out := out + ["Hobbies / Interests"] + [HobbiesLine(v.hobbies)];
    }
    assert out == languages + (if v.hobbies == [] then [] else ["Hobbies / Interests", HobbiesLine(v.hobbies)]);
    Regroup(doc, Optional("Extra-curricular / Volunteer Activities", ActivityLines, v.activities),
      if v.languages == [] then [] else ["Languages Known", Join(" | ", LanguageTexts(v.languages))],
      if v.hobbies == [] then [] else ["Hobbies / Interests", HobbiesLine(v.hobbies)]);
  }

  lemma Regroup(a: seq<string>, b: seq<string>, c: seq<string>, d: seq<string>)
    ensures a + b + c + d == a + (b + (c + d))
  {
  }

  // ---------------------------------------------------------------------
  // Properties of the layout

  /** A payload whose required values are all empty and which carries nothing
      else is still laid out: the name, the contact separators, the fixed
      headings and the experience heading. */
  lemma BlankPayloadAccepted(data: map<string, Json>)
    requires data.Keys == {"name", "email", "phone", "location", "summary", "technicalSkills", "softSkills", "experience"}
    requires data["name"] == data["email"] == data["phone"] == data["location"] == data["summary"] == JString("")
    requires data["technicalSkills"] == data["softSkills"] == data["experience"] == JArray([])
    ensures Generate(data) == Success(["", " |  | ", "", "Professional Summary", "",
      "Technical & Soft Skills", "Technical Skills: ", "Soft Skills: ", "Professional Experience"])
  {
    forall f | f in Backend.RequiredKeys
      ensures f in data
    {
    }
    GenerateDefaultStyle(data);
    var blank := Resume("", "", "", "", "", [], [], [], [], [], [], [], [], [], []);
    BlankRead(data);
    XmlDocument(blank);
    assert XmlResume(blank) by { assert XmlText(""); }
    BlankDocument();
  }

  /** Without a style, a payload with its keys is accepted exactly when it
      is read and lxml accepts its document: the default font Calibri is
      XML text. */
  lemma GenerateDefaultStyle(data: map<string, Json>)
    requires forall f :: f in Backend.RequiredKeys ==> f in data
    requires "style" !in data
    ensures Generate(data).Success? <==> Read(data).Some? && XmlLines(Document(Read(data).value))
    ensures Generate(data).Success? ==> Generate(data).value == Document(Read(data).value)
  {
    assert Backend.CheckRequiredKeys(data) == Pass;
    assert StyleOf(data) == Some(map[]);
    Backend.StyleDefaults();
    assert XmlText("Calibri");
  }

  /** A skills value ', '.join can take: a string, or a list of strings. */
  predicate TextList(v: Json) {
    v.JString? || (v.JArray? && forall k :: 0 <= k < |v.items| ==> v.items[k].JString?)
  }

  /** A payload whose required values have the shapes the layout code
      reads, with no style, a string or nothing for hobbies and no other
      section. */
  predicate Readable(data: map<string, Json>) {
    && "name" in data && data["name"].JString? && "email" in data && data["email"].JString?
    && "phone" in data && data["phone"].JString? && "location" in data && data["location"].JString?
    && "summary" in data && data["summary"].JString?
    && "technicalSkills" in data && TextList(data["technicalSkills"])
    && "softSkills" in data && TextList(data["softSkills"])
    && "experience" in data && ReadEntries(data["experience"], ReadExperience).Some?
    && "style" !in data
    && ("education" !in data || !Truthy(data["education"]))
    && ("projects" !in data || !Truthy(data["projects"]))
    && ("certifications" !in data || !Truthy(data["certifications"]))
    && ("achievements" !in data || !Truthy(data["achievements"]))
    && ("activities" !in data || !Truthy(data["activities"]))
    && ("languages" !in data || !Truthy(data["languages"]))
    && ("hobbies" in data ==> data["hobbies"].JString? || !Truthy(data["hobbies"]))
  }

  /** Such a payload is read, and its texts are the payload's strings. */
  lemma ReadableRead(data: map<string, Json>)
    requires Readable(data)
    ensures Read(data).Some?
    ensures Read(data).value.name == data["name"].s
    ensures Read(data).value.email == data["email"].s
    ensures Read(data).value.phone == data["phone"].s
    ensures Read(data).value.location == data["location"].s
  {
  }

  /** Such a payload is read, and it is accepted exactly when every text
      of the record that the document prints is XML text; its document then
      opens with the upper-cased name and the contact line. */
  lemma ReadablePayloadAccepted(data: map<string, Json>)
    requires Readable(data)
    ensures Read(data).Some?
    ensures Generate(data).Success? <==> XmlResume(Read(data).value)
    ensures Generate(data).Success? ==> Generate(data).value[0] == Upper(data["name"].s)
    ensures Generate(data).Success? ==>
      Generate(data).value[1] == data["email"].s + " | " + data["phone"].s + " | " + data["location"].s
  {
    forall f | f in Backend.RequiredKeys
      ensures f in data
    {
    }
    ReadableRead(data);
    GenerateDefaultStyle(data);
    XmlDocument(Read(data).value);
    if Generate(data).Success? {
      GeneratedOpening(data);
    }
  }

  /** An accepted payload's document opens with the upper-cased name and
      the contact line. */
  lemma GeneratedOpening(data: map<string, Json>)
    requires Generate(data).Success?
    ensures Generate(data).value[0] == Upper(Read(data).value.name)
    ensures Generate(data).value[1] == Read(data).value.email + " | " + Read(data).value.phone + " | " + Read(data).value.location
  {
    DocumentShape(Read(data).value);
  }

  lemma BlankRead(data: map<string, Json>)
    requires data.Keys == {"name", "email", "phone", "location", "summary", "technicalSkills", "softSkills", "experience"}
    requires data["name"] == data["email"] == data["phone"] == data["location"] == data["summary"] == JString("")
    requires data["technicalSkills"] == data["softSkills"] == data["experience"] == JArray([])
    ensures Read(data) == Some(Resume("", "", "", "", "", [], [], [], [], [], [], [], [], [], []))
  {
    assert "education" !in data && "projects" !in data && "certifications" !in data;
    assert "achievements" !in data && "activities" !in data && "languages" !in data && "hobbies" !in data;
  }

  lemma BlankDocument()
    ensures Document(Resume("", "", "", "", "", [], [], [], [], [], [], [], [], [], [])) ==
      ["", " |  | ", "", "Professional Summary", "",
      "Technical & Soft Skills", "Technical Skills: ", "Soft Skills: ", "Professional Experience"]
  {
    var v := Resume("", "", "", "", "", [], [], [], [], [], [], [], [], [], []);
    assert Upper("") == "";
    assert ContactLine("", "", "") == " |  | ";
    assert "Technical Skills: " + Join(", ", []) == "Technical Skills: ";
    assert "Soft Skills: " + Join(", ", []) == "Soft Skills: ";
    assert Middle(v) == ["Professional Experience"];
    assert Awards(v) == [] && Closing(v) == [];
  }

  /** The document opens with the upper-cased name and the contact line, and
      the experience heading always follows the optional education
      section. */
  lemma DocumentShape(v: Resume)
    ensures |Document(v)| >= 9
    ensures Document(v)[..8] == Opening(v)
    ensures Document(v)[0] == Upper(v.name)
    ensures Document(v)[1] == v.email + " | " + v.phone + " | " + v.location
    ensures Document(v)[8 + |Optional("Education", EducationLines, v.education)|] == "Professional Experience"
  {
    var opening := Opening(v);
    var education := Optional("Education", EducationLines, v.education);
    var middle := Middle(v);
    var rest := middle + (Awards(v) + Closing(v));
    assert |opening| == 8;
    assert Document(v) == opening + rest;
    assert middle == education + (["Professional Experience"] + FlatMap(ExperienceLines, v.experience));
    assert middle[|education|] == "Professional Experience";
    assert rest[|education|] == "Professional Experience";
  }

  /** The education entry: the school, " - degree" only with a degree, and a
      second paragraph only when there is a graduation date or a GPA, holding
      "Graduation: d" and "GPA: g" for the non-empty ones, in that order,
      joined by " | ". */
  lemma EducationDetails(e: Draft.Education)
    ensures EducationLines(e)[0] == if e.degree != "" then e.school + " - " + e.degree else e.school
    ensures |EducationLines(e)| == if e.graduationDate != "" || e.gpa != "" then 2 else 1
    ensures e.graduationDate != "" && e.gpa != "" ==>
      EducationLines(e)[1] == ("Graduation: " + e.graduationDate) + " | " + ("GPA: " + e.gpa)
    ensures e.graduationDate != "" && e.gpa == "" ==> EducationLines(e)[1] == "Graduation: " + e.graduationDate
    ensures e.graduationDate == "" && e.gpa != "" ==> EducationLines(e)[1] == "GPA: " + e.gpa
  {
    var parts := DateGpa(e);
    if e.graduationDate != "" && e.gpa != "" {
      assert parts == ["Graduation: " + e.graduationDate, "GPA: " + e.gpa];
      assert parts[1..] == ["GPA: " + e.gpa];
      assert Join(" | ", parts) == parts[0] + " | " + parts[1];
    } else if e.graduationDate != "" {
      assert parts == ["Graduation: " + e.graduationDate];
    } else if e.gpa != "" {
      assert parts == ["GPA: " + e.gpa];
    }
  }

  /** The dates run follows the title exactly when there are dates. */
  lemma {:induction false} ExperienceDatesSuffix(x: Draft.Experience)
    ensures x.title <= TitleLine(x)
    ensures TitleLine(x) == x.title <==> x.dates == ""
    ensures x.dates != "" ==> TitleLine(x)[|x.title|..] == " | " + x.dates
  {
    if x.dates != "" {
      assert |TitleLine(x)| == |x.title| + 3 + |x.dates|;
    }
  }

  /** The languages paragraph starts with the first entry, ends with the
      last, and holds one " | " per pair of neighbours and no other text. */
  lemma LanguagesLineShape(langs: seq<Draft.Language>)
    requires langs != []
    ensures LanguageText(langs[0]) <= Join(" | ", LanguageTexts(langs))
    ensures var line := Join(" | ", LanguageTexts(langs));
      var last := LanguageText(langs[|langs| - 1]);
      |last| <= |line| && line[|line| - |last|..] == last
    ensures |Join(" | ", LanguageTexts(langs))| == TotalLength(LanguageTexts(langs)) + 3 * (|langs| - 1)
    ensures |langs| == 1 ==> Join(" | ", LanguageTexts(langs)) == LanguageText(langs[0])
  {
    JoinEnds(" | ", LanguageTexts(langs));
    JoinLength(" | ", LanguageTexts(langs));
  }
}
