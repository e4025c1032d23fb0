/** The résumé form's state (ResumeForm.tsx): the FormData record the form
    posts, its initial value, and the change handlers. Every handler replaces
    the whole record with a new one (spread, filter, or assignment into a
    fresh copy of a list), so each is a function from the old record to the
    new one. */
module Draft {
  import opened Wrappers
  import opened Strings

  /** The property names a handler can target with a computed key
      (`{ ...item, [field]: value }`). */
  datatype Key =
    | Name | Email | Phone | Location | Summary
    | Company | Title | Dates | Description
    | School | Degree | GraduationDate | Gpa
    | Technologies | Link | Issuer | Date | Organization | Proficiency
    | ColorScheme | FontFamily | FontSize

  datatype Experience = Experience(company: string, title: string, dates: string, description: string)
  {
    /** keyof Experience */
    static predicate Has(k: Key) {
      k == Company || k == Title || k == Dates || k == Description
    }

    /** The value under a key, None when the record has no such key. */
    function Get(k: Key): Option<string> {
      match k
      case Company => Some(company)
      case Title => Some(title)
      case Dates => Some(dates)
      case Description => Some(description)
      case _ => None
    }

    function With(k: Key, v: string): (r: Experience)
      requires Has(k)
      ensures r.Get(k) == Some(v)
      ensures forall j :: j != k ==> r.Get(j) == Get(j)
    {
      match k
      case Company => this.(company := v)
      case Title => this.(title := v)
      case Dates => this.(dates := v)
      case Description => this.(description := v)
    }

    /** Every key the record holds maps to ''. */
    predicate IsBlank() {
      forall k :: Get(k).Some? ==> Get(k) == Some("")
    }
  }

  /** `gpa` is optional in the type, but the form always sets it. */
  datatype Education = Education(school: string, degree: string, graduationDate: string, gpa: string)
  {
    static predicate Has(k: Key) {
      k == School || k == Degree || k == GraduationDate || k == Gpa
    }

    function Get(k: Key): Option<string> {
      match k
      case School => Some(school)
      case Degree => Some(degree)
      case GraduationDate => Some(graduationDate)
      case Gpa => Some(gpa)
      case _ => None
    }

    function With(k: Key, v: string): (r: Education)
      requires Has(k)
      ensures r.Get(k) == Some(v)
      ensures forall j :: j != k ==> r.Get(j) == Get(j)
    {
      match k
      case School => this.(school := v)
      case Degree => this.(degree := v)
      case GraduationDate => this.(graduationDate := v)
      case Gpa => this.(gpa := v)
    }

    predicate IsBlank() {
      forall k :: Get(k).Some? ==> Get(k) == Some("")
    }
  }

  /** `link` is optional: a new project has no link key at all. */
  datatype Project = Project(title: string, description: string, technologies: string, link: Option<string>)
  {
    static predicate Has(k: Key) {
      k == Title || k == Description || k == Technologies || k == Link
    }

    function Get(k: Key): Option<string> {
      match k
      case Title => Some(title)
      case Description => Some(description)
      case Technologies => Some(technologies)
      case Link => link
      case _ => None
    }

    function With(k: Key, v: string): (r: Project)
      requires Has(k)
      ensures r.Get(k) == Some(v)
      ensures forall j :: j != k ==> r.Get(j) == Get(j)
    {
      match k
      case Title => this.(title := v)
      case Description => this.(description := v)
      case Technologies => this.(technologies := v)
      case Link => this.(link := Some(v))
    }

    predicate IsBlank() {
      forall k :: Get(k).Some? ==> Get(k) == Some("")
    }
  }

  datatype Certification = Certification(name: string, issuer: string, date: string, link: Option<string>)
  {
    static predicate Has(k: Key) {
      k == Name || k == Issuer || k == Date || k == Link
    }

    function Get(k: Key): Option<string> {
      match k
      case Name => Some(name)
      case Issuer => Some(issuer)
      case Date => Some(date)
      case Link => link
      case _ => None
    }

    function With(k: Key, v: string): (r: Certification)
      requires Has(k)
      ensures r.Get(k) == Some(v)
      ensures forall j :: j != k ==> r.Get(j) == Get(j)
    {
      match k
      case Name => this.(name := v)
      case Issuer => this.(issuer := v)
      case Date => this.(date := v)
      case Link => this.(link := Some(v))
    }

    predicate IsBlank() {
      forall k :: Get(k).Some? ==> Get(k) == Some("")
    }
  }

  datatype Achievement = Achievement(title: string, date: string, description: string)
  {
    static predicate Has(k: Key) {
      k == Title || k == Date || k == Description
    }

    function Get(k: Key): Option<string> {
      match k
      case Title => Some(title)
      case Date => Some(date)
      case Description => Some(description)
      case _ => None
    }

    function With(k: Key, v: string): (r: Achievement)
      requires Has(k)
      ensures r.Get(k) == Some(v)
      ensures forall j :: j != k ==> r.Get(j) == Get(j)
    {
      match k
      case Title => this.(title := v)
      case Date => this.(date := v)
      case Description => this.(description := v)
    }

    predicate IsBlank() {
      forall k :: Get(k).Some? ==> Get(k) == Some("")
    }
  }

  datatype Activity = Activity(title: string, organization: string, date: string, description: string)
  {
    static predicate Has(k: Key) {
      k == Title || k == Organization || k == Date || k == Description
    }

    function Get(k: Key): Option<string> {
      match k
      case Title => Some(title)
      case Organization => Some(organization)
      case Date => Some(date)
      case Description => Some(description)
      case _ => None
    }

    function With(k: Key, v: string): (r: Activity)
      requires Has(k)
      ensures r.Get(k) == Some(v)
      ensures forall j :: j != k ==> r.Get(j) == Get(j)
    {
      match k
      case Title => this.(title := v)
      case Organization => this.(organization := v)
      case Date => this.(date := v)
      case Description => this.(description := v)
    }

    predicate IsBlank() {
      forall k :: Get(k).Some? ==> Get(k) == Some("")
    }
  }

  datatype Language = Language(name: string, proficiency: string)
  {
    static predicate Has(k: Key) {
      k == Name || k == Proficiency
    }

    function Get(k: Key): Option<string> {
      match k
      case Name => Some(name)
      case Proficiency => Some(proficiency)
      case _ => None
    }

    function With(k: Key, v: string): (r: Language)
      requires Has(k)
      ensures r.Get(k) == Some(v)
      ensures forall j :: j != k ==> r.Get(j) == Get(j)
    {
      match k
      case Name => this.(name := v)
      case Proficiency => this.(proficiency := v)
    }

    predicate IsBlank() {
      forall k :: Get(k).Some? ==> Get(k) == Some("")
    }
  }

  datatype Style = Style(colorScheme: string, fontFamily: string, fontSize: string)
  {
    static predicate Has(k: Key) {
      k == ColorScheme || k == FontFamily || k == FontSize
    }

    function Get(k: Key): Option<string> {
      match k
      case ColorScheme => Some(colorScheme)
      case FontFamily => Some(fontFamily)
      case FontSize => Some(fontSize)
      case _ => None
    }
  }

  datatype FormData = FormData(
    name: string,
    email: string,
    phone: string,
    location: string,
    summary: string,
    skills: seq<string>,
    experience: seq<Experience>,
    education: seq<Education>,
    projects: seq<Project>,
    certifications: seq<Certification>,
    achievements: seq<Achievement>,
    activities: seq<Activity>,
    languages: seq<Language>,
    hobbies: seq<string>,
    technicalSkills: seq<string>,
    softSkills: seq<string>,
    style: Style)
  {
    /** The top-level text inputs wired to handleInputChange. */
    static predicate IsScalar(k: Key) {
      k == Name || k == Email || k == Phone || k == Location || k == Summary
    }

    function Get(k: Key): Option<string> {
      match k
      case Name => Some(name)
      case Email => Some(email)
      case Phone => Some(phone)
      case Location => Some(location)
      case Summary => Some(summary)
      case _ => None
    }
  }

  /** The value useState starts the form with. */
  function Initial(): (d: FormData)
    ensures forall k :: FormData.IsScalar(k) ==> d.Get(k) == Some("")
    ensures |d.experience| == 1 && d.experience[0].IsBlank()
    ensures |d.education| == 1 && d.education[0].IsBlank()
    ensures |d.projects| == 1 && d.projects[0].IsBlank() && d.projects[0].link.None?
    ensures |d.certifications| == 1 && d.certifications[0].IsBlank() && d.certifications[0].link.None?
    ensures |d.achievements| == 1 && d.achievements[0].IsBlank()
    ensures |d.activities| == 1 && d.activities[0].IsBlank()
    ensures |d.languages| == 1 && d.languages[0].IsBlank()
    ensures d.skills == [] && d.hobbies == [] && d.technicalSkills == [] && d.softSkills == []
    ensures d.style.colorScheme == "classic" && d.style.fontFamily == "Calibri" && d.style.fontSize == "normal"
  {
    FormData(
      "", "", "", "", "",
      [],
      [Experience("", "", "", "")],
      [Education("", "", "", "")],
      [Project("", "", "", None)],
      [Certification("", "", "", None)],
      [Achievement("", "", "")],
      [Activity("", "", "", "")],
      [Language("", "")],
      [], [], [],
      Style("classic", "Calibri", "normal"))
  }

  /** Array.prototype.filter((_, i) => i !== index) over the entries of `s`
      that sit at positions offset, offset + 1, ... */
  function KeepOthers<T>(s: seq<T>, index: int, offset: int): (r: seq<T>)
    ensures offset <= index < offset + |s| ==> r == s[..index - offset] + s[index - offset + 1..]
    ensures !(offset <= index < offset + |s|) ==> r == s
  {
    if s == [] then []
    else (if offset == index then [] else [s[0]]) + KeepOthers(s[1..], index, offset + 1)
  }

  /** list.filter((_, i) => i !== index): drops the entry at index if there
      is one, and keeps the others in order. */
  function WithoutIndex<T>(s: seq<T>, index: int): (r: seq<T>)
    ensures 0 <= index < |s| ==> |r| == |s| - 1
    ensures 0 <= index < |s| ==> forall i :: 0 <= i < |r| ==> r[i] == if i < index then s[i] else s[i + 1]
    ensures !(0 <= index < |s|) ==> r == s
  {
    KeepOthers(s, index, 0)
  }

  /** handleInputChange: sets one top-level text field. */
  function ChangeInput(d: FormData, key: Key, value: string): (r: FormData)
    requires FormData.IsScalar(key)
    ensures r.Get(key) == Some(value)
    ensures forall k :: k != key ==> r.Get(k) == d.Get(k)
    ensures r.(name := d.name, email := d.email, phone := d.phone, location := d.location, summary := d.summary) == d
  {
    match key
    case Name => d.(name := value)
    case Email => d.(email := value)
    case Phone => d.(phone := value)
    case Location => d.(location := value)
    case Summary => d.(summary := value)
  }

  /** handleStyleChange: sets one key of the style sub-record. */
  function ChangeStyle(d: FormData, key: Key, value: string): (r: FormData)
    requires Style.Has(key)
    ensures r.style.Get(key) == Some(value)
    ensures forall k :: k != key ==> r.style.Get(k) == d.style.Get(k)
    ensures r.(style := d.style) == d
  {
    match key
    case ColorScheme => d.(style := d.style.(colorScheme := value))
    case FontFamily => d.(style := d.style.(fontFamily := value))
    case FontSize => d.(style := d.style.(fontSize := value))
  }

  /** handleRemoveSkill(index) */
  function RemoveSkill(d: FormData, index: int): (r: FormData)
    ensures 0 <= index < |d.skills| ==> r.skills == d.skills[..index] + d.skills[index + 1..]
    ensures !(0 <= index < |d.skills|) ==> r.skills == d.skills
    ensures r.(skills := d.skills) == d
  {
    d.(skills := WithoutIndex(d.skills, index))
  }

  /** addExperience: appends one Experience whose fields are all empty. */
  function AddExperience(d: FormData): (r: FormData)
    ensures |r.experience| == |d.experience| + 1 && r.experience[..|d.experience|] == d.experience
    ensures r.experience[|d.experience|].IsBlank()
    ensures r.(experience := d.experience) == d
  {
    d.(experience := d.experience + [Experience("", "", "", "")])
  }

  /** removeExperience(index): keeps every Experience whose position differs from index. */
  function RemoveExperience(d: FormData, index: int): (r: FormData)
    ensures 0 <= index < |d.experience| ==> r.experience == d.experience[..index] + d.experience[index + 1..]
    ensures !(0 <= index < |d.experience|) ==> r.experience == d.experience
    ensures r.(experience := d.experience) == d
  {
    d.(experience := WithoutIndex(d.experience, index))
  }

  /** handleExperienceChange(index, key, value): a fresh copy of the list whose
      entry at index has key set to value. */
  function ChangeExperience(d: FormData, index: int, key: Key, value: string): (r: FormData)
    requires 0 <= index < |d.experience| && Experience.Has(key)
    ensures |r.experience| == |d.experience|
    ensures r.experience[index].Get(key) == Some(value)
    ensures forall k :: k != key ==> r.experience[index].Get(k) == d.experience[index].Get(k)
    ensures forall i :: 0 <= i < |d.experience| && i != index ==> r.experience[i] == d.experience[i]
    ensures r.(experience := d.experience) == d
  {
    d.(experience := d.experience[index := d.experience[index].With(key, value)])
  }

  /** addEducation: appends one Education whose fields are all empty. */
  function AddEducation(d: FormData): (r: FormData)
    ensures |r.education| == |d.education| + 1 && r.education[..|d.education|] == d.education
    ensures r.education[|d.education|].IsBlank()
    ensures r.(education := d.education) == d
  {
    d.(education := d.education + [Education("", "", "", "")])
  }

  /** removeEducation(index): keeps every Education whose position differs from index. */
  function RemoveEducation(d: FormData, index: int): (r: FormData)
    ensures 0 <= index < |d.education| ==> r.education == d.education[..index] + d.education[index + 1..]
    ensures !(0 <= index < |d.education|) ==> r.education == d.education
    ensures r.(education := d.education) == d
  {
    d.(education := WithoutIndex(d.education, index))
  }

  /** handleEducationChange(index, key, value): a fresh copy of the list whose
      entry at index has key set to value. */
  function ChangeEducation(d: FormData, index: int, key: Key, value: string): (r: FormData)
    requires 0 <= index < |d.education| && Education.Has(key)
    ensures |r.education| == |d.education|
    ensures r.education[index].Get(key) == Some(value)
    ensures forall k :: k != key ==> r.education[index].Get(k) == d.education[index].Get(k)
    ensures forall i :: 0 <= i < |d.education| && i != index ==> r.education[i] == d.education[i]
    ensures r.(education := d.education) == d
  {
    d.(education := d.education[index := d.education[index].With(key, value)])
  }

  /** addProject: appends one Project whose fields are all empty. */
  function AddProject(d: FormData): (r: FormData)
    ensures |r.projects| == |d.projects| + 1 && r.projects[..|d.projects|] == d.projects
    ensures r.projects[|d.projects|].IsBlank()
    ensures r.projects[|d.projects|].Get(Link).None?
    ensures r.(projects := d.projects) == d
  {
    d.(projects := d.projects + [Project("", "", "", None)])
  }

  /** removeProject(index): keeps every Project whose position differs from index. */
  function RemoveProject(d: FormData, index: int): (r: FormData)
    ensures 0 <= index < |d.projects| ==> r.projects == d.projects[..index] + d.projects[index + 1..]
    ensures !(0 <= index < |d.projects|) ==> r.projects == d.projects
    ensures r.(projects := d.projects) == d
  {
    d.(projects := WithoutIndex(d.projects, index))
  }

  /** handleProjectChange(index, key, value): a fresh copy of the list whose
      entry at index has key set to value. */
  function ChangeProject(d: FormData, index: int, key: Key, value: string): (r: FormData)
    requires 0 <= index < |d.projects| && Project.Has(key)
    ensures |r.projects| == |d.projects|
    ensures r.projects[index].Get(key) == Some(value)
    ensures forall k :: k != key ==> r.projects[index].Get(k) == d.projects[index].Get(k)
    ensures forall i :: 0 <= i < |d.projects| && i != index ==> r.projects[i] == d.projects[i]
    ensures r.(projects := d.projects) == d
  {
    d.(projects := d.projects[index := d.projects[index].With(key, value)])
  }

  /** addCertification: appends one Certification whose fields are all empty. */
  function AddCertification(d: FormData): (r: FormData)
    ensures |r.certifications| == |d.certifications| + 1 && r.certifications[..|d.certifications|] == d.certifications
    ensures r.certifications[|d.certifications|].IsBlank()
    ensures r.certifications[|d.certifications|].Get(Link).None?
    ensures r.(certifications := d.certifications) == d
  {
    d.(certifications := d.certifications + [Certification("", "", "", None)])
  }

  /** removeCertification(index): keeps every Certification whose position differs from index. */
  function RemoveCertification(d: FormData, index: int): (r: FormData)
    ensures 0 <= index < |d.certifications| ==> r.certifications == d.certifications[..index] + d.certifications[index + 1..]
    ensures !(0 <= index < |d.certifications|) ==> r.certifications == d.certifications
    ensures r.(certifications := d.certifications) == d
  {
    d.(certifications := WithoutIndex(d.certifications, index))
  }

  /** handleCertificationChange(index, key, value): a fresh copy of the list whose
      entry at index has key set to value. */
  function ChangeCertification(d: FormData, index: int, key: Key, value: string): (r: FormData)
    requires 0 <= index < |d.certifications| && Certification.Has(key)
    ensures |r.certifications| == |d.certifications|
    ensures r.certifications[index].Get(key) == Some(value)
    ensures forall k :: k != key ==> r.certifications[index].Get(k) == d.certifications[index].Get(k)
    ensures forall i :: 0 <= i < |d.certifications| && i != index ==> r.certifications[i] == d.certifications[i]
    ensures r.(certifications := d.certifications) == d
  {
    d.(certifications := d.certifications[index := d.certifications[index].With(key, value)])
  }

  /** addAchievement: appends one Achievement whose fields are all empty. */
  function AddAchievement(d: FormData): (r: FormData)
    ensures |r.achievements| == |d.achievements| + 1 && r.achievements[..|d.achievements|] == d.achievements
    ensures r.achievements[|d.achievements|].IsBlank()
    ensures r.(achievements := d.achievements) == d
  {
    d.(achievements := d.achievements + [Achievement("", "", "")])
  }

  /** removeAchievement(index): keeps every Achievement whose position differs from index. */
  function RemoveAchievement(d: FormData, index: int): (r: FormData)
    ensures 0 <= index < |d.achievements| ==> r.achievements == d.achievements[..index] + d.achievements[index + 1..]
    ensures !(0 <= index < |d.achievements|) ==> r.achievements == d.achievements
    ensures r.(achievements := d.achievements) == d
  {
    d.(achievements := WithoutIndex(d.achievements, index))
  }

  /** handleAchievementChange(index, key, value): a fresh copy of the list whose
      entry at index has key set to value. */
  function ChangeAchievement(d: FormData, index: int, key: Key, value: string): (r: FormData)
    requires 0 <= index < |d.achievements| && Achievement.Has(key)
    ensures |r.achievements| == |d.achievements|
    ensures r.achievements[index].Get(key) == Some(value)
    ensures forall k :: k != key ==> r.achievements[index].Get(k) == d.achievements[index].Get(k)
    ensures forall i :: 0 <= i < |d.achievements| && i != index ==> r.achievements[i] == d.achievements[i]
    ensures r.(achievements := d.achievements) == d
  {
    d.(achievements := d.achievements[index := d.achievements[index].With(key, value)])
  }

  /** addActivity: appends one Activity whose fields are all empty. */
  function AddActivity(d: FormData): (r: FormData)
    ensures |r.activities| == |d.activities| + 1 && r.activities[..|d.activities|] == d.activities
    ensures r.activities[|d.activities|].IsBlank()
    ensures r.(activities := d.activities) == d
  {
    d.(activities := d.activities + [Activity("", "", "", "")])
  }

  /** removeActivity(index): keeps every Activity whose position differs from index. */
  function RemoveActivity(d: FormData, index: int): (r: FormData)
    ensures 0 <= index < |d.activities| ==> r.activities == d.activities[..index] + d.activities[index + 1..]
    ensures !(0 <= index < |d.activities|) ==> r.activities == d.activities
    ensures r.(activities := d.activities) == d
  {
    d.(activities := WithoutIndex(d.activities, index))
  }

  /** handleActivityChange(index, key, value): a fresh copy of the list whose
      entry at index has key set to value. */
  function ChangeActivity(d: FormData, index: int, key: Key, value: string): (r: FormData)
    requires 0 <= index < |d.activities| && Activity.Has(key)
    ensures |r.activities| == |d.activities|
    ensures r.activities[index].Get(key) == Some(value)
    ensures forall k :: k != key ==> r.activities[index].Get(k) == d.activities[index].Get(k)
    ensures forall i :: 0 <= i < |d.activities| && i != index ==> r.activities[i] == d.activities[i]
    ensures r.(activities := d.activities) == d
  {
    d.(activities := d.activities[index := d.activities[index].With(key, value)])
  }

  /** addLanguage: appends one Language whose fields are all empty. */
  function AddLanguage(d: FormData): (r: FormData)
    ensures |r.languages| == |d.languages| + 1 && r.languages[..|d.languages|] == d.languages
    ensures r.languages[|d.languages|].IsBlank()
    ensures r.(languages := d.languages) == d
  {
    d.(languages := d.languages + [Language("", "")])
  }

  /** removeLanguage(index): keeps every Language whose position differs from index. */
  function RemoveLanguage(d: FormData, index: int): (r: FormData)
    ensures 0 <= index < |d.languages| ==> r.languages == d.languages[..index] + d.languages[index + 1..]
    ensures !(0 <= index < |d.languages|) ==> r.languages == d.languages
    ensures r.(languages := d.languages) == d
  {
    d.(languages := WithoutIndex(d.languages, index))
  }

  /** handleLanguageChange(index, key, value): a fresh copy of the list whose
      entry at index has key set to value. */
  function ChangeLanguage(d: FormData, index: int, key: Key, value: string): (r: FormData)
    requires 0 <= index < |d.languages| && Language.Has(key)
    ensures |r.languages| == |d.languages|
    ensures r.languages[index].Get(key) == Some(value)
    ensures forall k :: k != key ==> r.languages[index].Get(k) == d.languages[index].Get(k)
    ensures forall i :: 0 <= i < |d.languages| && i != index ==> r.languages[i] == d.languages[i]
    ensures r.(languages := d.languages) == d
  {
    d.(languages := d.languages[index := d.languages[index].With(key, value)])
  }

  /** The form record together with the text typed into the new-skill box. */
  datatype Editor = Editor(form: FormData, newSkill: string)

  function InitialEditor(): Editor {
    Editor(Initial(), "")
  }

  /** handleAddSkill: a blank entry (after trim) changes nothing; otherwise
      the trimmed text is appended and the box is cleared. */
  function AddSkill(e: Editor): (r: Editor)
    ensures JsTrim(e.newSkill) == "" ==> r == e
    ensures JsTrim(e.newSkill) != "" ==>
      && |r.form.skills| == |e.form.skills| + 1
      && r.form.skills[..|e.form.skills|] == e.form.skills
      && r.form.(skills := e.form.skills) == e.form
      && r.newSkill == ""
    ensures JsTrim(e.newSkill) != "" ==>
      var added := r.form.skills[|e.form.skills|];
      && added == JsTrim(e.newSkill)
      && added != ""
      && added[0] !in JsWhitespace && added[|added| - 1] !in JsWhitespace
      && JsTrim(added) == added
  {
    if JsTrim(e.newSkill) != "" then
      Editor(e.form.(skills := e.form.skills + [JsTrim(e.newSkill)]), "")
    else
      e
  }
}
