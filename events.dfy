/** The user's edits to the form as a stream of events, and the rule the
    rendered buttons enforce: a section's remove button is disabled (or, for
    education, hidden) while the section has a single entry, so every
    repeatable section keeps at least one entry. The handlers themselves do
    not enforce this. */
module FormEvents {
  import opened Draft

  /** One user action on the form, named after the control that fires it. */
  datatype Event =
    | InputChanged(key: Key, value: string)
    | StyleChanged(key: Key, value: string)
    | SkillTyped(value: string)
    | SkillAdded
    | SkillRemoved(index: int)
    | ExperienceChanged(index: int, key: Key, value: string)
    | ExperienceAdded
    | ExperienceRemoved(index: int)
    | EducationChanged(index: int, key: Key, value: string)
    | EducationAdded
    | EducationRemoved(index: int)
    | ProjectChanged(index: int, key: Key, value: string)
    | ProjectAdded
    | ProjectRemoved(index: int)
    | CertificationChanged(index: int, key: Key, value: string)
    | CertificationAdded
    | CertificationRemoved(index: int)
    | AchievementChanged(index: int, key: Key, value: string)
    | AchievementAdded
    | AchievementRemoved(index: int)
    | ActivityChanged(index: int, key: Key, value: string)
    | ActivityAdded
    | ActivityRemoved(index: int)
    | LanguageChanged(index: int, key: Key, value: string)
    | LanguageAdded
    | LanguageRemoved(index: int)

  /** The control exists and is enabled: per-entry controls belong to a
      rendered entry, and a remove button is disabled while its section has
      one entry (education: shown only while it has more than one). */
  predicate Enabled(e: Editor, ev: Event)
  {
    var d := e.form;
    match ev
    case InputChanged(k, _) => FormData.IsScalar(k)
    case StyleChanged(k, _) => Style.Has(k)
    case SkillTyped(_) => true
    case SkillAdded => true
    case SkillRemoved(i) => 0 <= i < |d.skills|
    case ExperienceChanged(i, k, _) => 0 <= i < |d.experience| && Experience.Has(k)
    case ExperienceAdded => true
    case ExperienceRemoved(i) => 0 <= i < |d.experience| && |d.experience| != 1
    case EducationChanged(i, k, _) => 0 <= i < |d.education| && Education.Has(k)
    case EducationAdded => true
    case EducationRemoved(i) => 0 <= i < |d.education| && |d.education| > 1
    case ProjectChanged(i, k, _) => 0 <= i < |d.projects| && Project.Has(k)
    case ProjectAdded => true
    case ProjectRemoved(i) => 0 <= i < |d.projects| && |d.projects| != 1
    case CertificationChanged(i, k, _) => 0 <= i < |d.certifications| && Certification.Has(k)
    case CertificationAdded => true
    case CertificationRemoved(i) => 0 <= i < |d.certifications| && |d.certifications| != 1
    case AchievementChanged(i, k, _) => 0 <= i < |d.achievements| && Achievement.Has(k)
    case AchievementAdded => true
    case AchievementRemoved(i) => 0 <= i < |d.achievements| && |d.achievements| != 1
    case ActivityChanged(i, k, _) => 0 <= i < |d.activities| && Activity.Has(k)
    case ActivityAdded => true
    case ActivityRemoved(i) => 0 <= i < |d.activities| && |d.activities| != 1
    case LanguageChanged(i, k, _) => 0 <= i < |d.languages| && Language.Has(k)
    case LanguageAdded => true
    case LanguageRemoved(i) => 0 <= i < |d.languages| && |d.languages| != 1
  }

  /** A remove button is usable only while its section has another entry
      to keep, and on a rendered entry; the add buttons are always there. */
  lemma RemovalKeepsAnEntry(e: Editor, ev: Event)
    ensures ev.ExperienceRemoved? ==> (Enabled(e, ev) <==> 0 <= ev.index < |e.form.experience| && |e.form.experience| > 1)
    ensures ev.EducationRemoved? ==> (Enabled(e, ev) <==> 0 <= ev.index < |e.form.education| && |e.form.education| > 1)
    ensures ev.ProjectRemoved? ==> (Enabled(e, ev) <==> 0 <= ev.index < |e.form.projects| && |e.form.projects| > 1)
    ensures ev.CertificationRemoved? ==> (Enabled(e, ev) <==> 0 <= ev.index < |e.form.certifications| && |e.form.certifications| > 1)
    ensures ev.AchievementRemoved? ==> (Enabled(e, ev) <==> 0 <= ev.index < |e.form.achievements| && |e.form.achievements| > 1)
    ensures ev.ActivityRemoved? ==> (Enabled(e, ev) <==> 0 <= ev.index < |e.form.activities| && |e.form.activities| > 1)
    ensures ev.LanguageRemoved? ==> (Enabled(e, ev) <==> 0 <= ev.index < |e.form.languages| && |e.form.languages| > 1)
    ensures (|| ev.SkillAdded? || ev.ExperienceAdded? || ev.EducationAdded? || ev.ProjectAdded?
             || ev.CertificationAdded? || ev.AchievementAdded? || ev.ActivityAdded? || ev.LanguageAdded?)
      ==> Enabled(e, ev)
  {
  }

  /** The handler the control calls. */
  function Apply(e: Editor, ev: Event): Editor
    requires Enabled(e, ev)
  {
    var d := e.form;
    match ev
    case InputChanged(k, v) => e.(form := ChangeInput(d, k, v))
    case StyleChanged(k, v) => e.(form := ChangeStyle(d, k, v))
    case SkillTyped(v) => e.(newSkill := v)
    case SkillAdded => AddSkill(e)
    case SkillRemoved(i) => e.(form := RemoveSkill(d, i))
    case ExperienceChanged(i, k, v) => e.(form := ChangeExperience(d, i, k, v))
    case ExperienceAdded => e.(form := AddExperience(d))
    case ExperienceRemoved(i) => e.(form := RemoveExperience(d, i))
    case EducationChanged(i, k, v) => e.(form := ChangeEducation(d, i, k, v))
    case EducationAdded => e.(form := AddEducation(d))
    case EducationRemoved(i) => e.(form := RemoveEducation(d, i))
    case ProjectChanged(i, k, v) => e.(form := ChangeProject(d, i, k, v))
    case ProjectAdded => e.(form := AddProject(d))
    case ProjectRemoved(i) => e.(form := RemoveProject(d, i))
    case CertificationChanged(i, k, v) => e.(form := ChangeCertification(d, i, k, v))
    case CertificationAdded => e.(form := AddCertification(d))
    case CertificationRemoved(i) => e.(form := RemoveCertification(d, i))
    case AchievementChanged(i, k, v) => e.(form := ChangeAchievement(d, i, k, v))
    case AchievementAdded => e.(form := AddAchievement(d))
    case AchievementRemoved(i) => e.(form := RemoveAchievement(d, i))
    case ActivityChanged(i, k, v) => e.(form := ChangeActivity(d, i, k, v))
    case ActivityAdded => e.(form := AddActivity(d))
    case ActivityRemoved(i) => e.(form := RemoveActivity(d, i))
    case LanguageChanged(i, k, v) => e.(form := ChangeLanguage(d, i, k, v))
    case LanguageAdded => e.(form := AddLanguage(d))
    case LanguageRemoved(i) => e.(form := RemoveLanguage(d, i))
  }

  /** A click on a disabled or absent control does nothing. */
  function Step(e: Editor, ev: Event): Editor
  {
    if Enabled(e, ev) then Apply(e, ev) else e
  }

  /** The editor after a sequence of user actions, first to last. */
  function Run(e: Editor, evs: seq<Event>): Editor
    decreases |evs|
  {
    if evs == [] then e else Run(Step(e, evs[0]), evs[1..])
  }

  /** Each of the seven repeatable sections has at least one entry (the three
      skill-like lists and hobbies may be empty). */
  predicate AtLeastOneEntry(d: FormData)
  {
    && |d.experience| >= 1
    && |d.education| >= 1
    && |d.projects| >= 1
    && |d.certifications| >= 1
    && |d.achievements| >= 1
    && |d.activities| >= 1
    && |d.languages| >= 1
  }

  /** One enabled action keeps every repeatable section non-empty. */
  lemma StepKeepsEntries(e: Editor, ev: Event)
    requires AtLeastOneEntry(e.form)
    ensures AtLeastOneEntry(Step(e, ev).form)
  {
    RemovalKeepsAnEntry(e, ev);
  }

  /** However the user edits the form, every repeatable section keeps an
      entry, starting from the initial form. */
  lemma {:induction false} RunKeepsEntries(e: Editor, evs: seq<Event>)
    requires AtLeastOneEntry(e.form)
    ensures AtLeastOneEntry(Run(e, evs).form)
    decreases |evs|
  {
    if evs != [] {
      StepKeepsEntries(e, evs[0]);
      RunKeepsEntries(Step(e, evs[0]), evs[1..]);
    }
  }

  lemma SessionKeepsEntries(evs: seq<Event>)
    ensures AtLeastOneEntry(Run(InitialEditor(), evs).form)
  {
    RunKeepsEntries(InitialEditor(), evs);
  }

  /** The handlers alone do not keep the rule: removing the only experience
      entry, which the disabled button prevents, empties the section. */
  lemma UnguardedRemoveEmptiesSection()
    ensures !Enabled(InitialEditor(), ExperienceRemoved(0))
    ensures RemoveExperience(Initial(), 0).experience == []
  {
  }
}
