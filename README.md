# AI résumé builder: a verified model of the form editor, the submit workflow and the server's text assembly

The AI résumé builder is a React form paired with a Flask server. The user
fills in a draft résumé in the browser. That draft has:

- scalar text fields;
- seven repeatable sections: experience, education, projects, certifications,
  achievements, activities and languages;
- three lists of strings: hobbies, technical skills (`technicalSkills`) and
  soft skills (`softSkills`);
- a style record.

The browser posts the draft to `/generate`. The server checks the payload,
looks up a colour scheme and font sizes, and lays out a Word document
paragraph by paragraph. The browser then offers the document for download
from the URL it derived from the answer. The server also has a helper that
asks a hosted language model to rewrite a section and falls back on the
original text when that fails.

This project models that core in Dafny and proves what it promises.

| file | module | models |
|---|---|---|
| `wrappers.dfy` | `Wrappers` | `Option`, `Result` and `Outcome` values |
| `strings.dfy` | `Strings` | JavaScript `trim()` and Python `strip()` with their own whitespace sets, Python `replace(p, '')`, `join`, ASCII `upper()`, decimal rendering, and the paragraph concatenation `FlatMap` |
| `json.dfy` | `Json` | the decoded request body, with Python's truth test |
| `draft.dfy` | `Draft` | the form's record (`FormData`), its item records, the initial draft, and every handler that edits the draft, each a pure function from draft to draft |
| `events.dfy` | `FormEvents` | the user's actions as events. Only enabled controls act, and the remove-button guards keep an entry in every repeatable section |
| `workflow.dfy` | `Workflow` | `API_BASE_URL`, the outcome of a submit and of a download, and the component as a class whose methods update `loading`, `error`, `success` and `downloadUrl` step by step |
| `backend.dfy` | `Backend` | `validate_input` (a loop with an early exit), the required-key check of `generate_resume`, and `get_style_config` with its tables |
| `layout.dfy` | `Layout` | how `generate_resume` reads the payload, and its paragraphs. These are specified as functions and written by methods that append to a sequence of paragraph texts, loop by loop as the Python code does |
| `textgen.dfy` | `TextGen` | how `generate_text` handles the reply, its clean-up of the generated text, and `enhance_content`'s fallback |

The HTTP calls are not modelled. Their outcomes are parameters:
- `Workflow.PostResult` and `Workflow.DownloadResult` for the browser;
- `TextGen.Reply` for the server's call to the language model.

`EnhanceContent` takes the model as an oracle from the prompt text to the
reply. The browser's requests are recorded in a ghost list on the class, so
the contracts can say which request each action sends.

In `ResumeForm.tsx` the per-item change handlers copy the list from the
component's current `formData`, where the add and remove handlers read the
`prev` value React passes in. With one event handled at a time the two are
the same value, which is how the model treats them.

## Model

| member | source | states |
|---|---|---|
| Strings.Trim | ai-resume-builder/frontend/src/components/ResumeForm.tsx:167 | the result is empty or starts and ends with a non-whitespace character; it is empty exactly when every character of the input is whitespace |
| Strings.TrimIsSlice | ai-resume-builder/frontend/src/components/ResumeForm.tsx:167-170 | trimming cuts out one contiguous slice of the input, and everything removed before and after it is whitespace |
| Strings.TrimKeeps | ai-resume-builder/app.py:82 | a text that neither starts nor ends with whitespace is left unchanged by stripping |
| Strings.RemoveAll | ai-resume-builder/app.py:84 | `replace(p, '')` never lengthens the text; it changes the text exactly when `p` occurs in it, and then it shortens it by at least `len(p)` |
| Strings.RemoveAllSkips | ai-resume-builder/app.py:84 | `replace(p, '')` works left to right without overlaps: the text before the first occurrence is kept, that occurrence is dropped, and the rest is treated the same way |
| Strings.JoinSnoc | ai-resume-builder/app.py:421-425 | joining one more part adds the separator and the part at the end, with no separator before a first part |
| Strings.JoinLength | ai-resume-builder/app.py:291 | a join is as long as its parts together plus one separator per pair of neighbours |
| Strings.JoinEnds | ai-resume-builder/app.py:291 | a join starts with its first part and ends with its last part |
| Strings.Upper | ai-resume-builder/app.py:220 | upper-casing keeps the length, leaves no lower-case ASCII letter, and changes only lower-case letters, into their capitals |
| Strings.Decimal | ai-resume-builder/frontend/src/components/ResumeForm.fixed.tsx:98 | a status code is rendered as a non-empty run of decimal digits |
| Strings.DecimalRoundTrip | ai-resume-builder/frontend/src/components/ResumeForm.fixed.tsx:98 | reading the rendered digits back gives the status code |
| Strings.FlatMapSnoc | ai-resume-builder/app.py:302-321 | the paragraphs of one more entry come after those of the entries before it |
| Draft.Initial | ai-resume-builder/frontend/src/components/ResumeForm.tsx:80-132 | the scalars are empty; each of the seven sections holds exactly one all-empty entry, with no project or certification link; skills, hobbies, technicalSkills and softSkills are empty; the style is classic / Calibri / normal |
| Draft.WithoutIndex | ai-resume-builder/frontend/src/components/ResumeForm.tsx:159-164 | filtering on the index drops exactly the entry at an in-range index, so the length falls by one and the other entries keep their order; an out-of-range index changes nothing |
| Draft.ChangeInput | ai-resume-builder/frontend/src/components/ResumeForm.tsx:141-144 | the named top-level text field takes the value; every other field, list and the style are unchanged |
| Draft.ChangeStyle | ai-resume-builder/frontend/src/components/ResumeForm.tsx:203-211 | the named style key takes the value; the other style keys and the rest of the draft are unchanged |
| Draft.RemoveSkill | ai-resume-builder/frontend/src/components/ResumeForm.tsx:176-181 | an in-range index removes exactly that skill; an out-of-range one leaves the list as it is; nothing else changes |
| Draft.AddSkill | ai-resume-builder/frontend/src/components/ResumeForm.tsx:166-174 | a buffer that trims to nothing changes nothing; otherwise the trimmed text is appended, non-empty and with no whitespace at either end, the earlier skills and the rest of the draft are kept, and the buffer is cleared |
| Draft.AddExperience | ai-resume-builder/frontend/src/components/ResumeForm.tsx:152-157 | the list grows by one all-empty entry at the end; the earlier entries and every other section are unchanged |
| Draft.RemoveExperience | ai-resume-builder/frontend/src/components/ResumeForm.tsx:159-164 | an in-range index removes exactly that entry, keeping the order of the rest; an out-of-range index changes nothing; other sections are unchanged |
| Draft.ChangeExperience | ai-resume-builder/frontend/src/components/ResumeForm.tsx:146-150 | the named field of the entry at the index takes the value; its other fields, the other entries and the other sections are unchanged |
| Draft.AddEducation | ai-resume-builder/frontend/src/components/ResumeForm.tsx:189-194 | as for experience: one all-empty entry appended, everything else kept |
| Draft.RemoveEducation | ai-resume-builder/frontend/src/components/ResumeForm.tsx:196-201 | as for experience: exactly the entry at an in-range index goes, otherwise nothing changes |
| Draft.ChangeEducation | ai-resume-builder/frontend/src/components/ResumeForm.tsx:183-187 | as for experience: one field of one entry changes and nothing else |
| Draft.AddProject | ai-resume-builder/frontend/src/components/ResumeForm.tsx:243-248 | one all-empty project without a link appended, everything else kept |
| Draft.RemoveProject | ai-resume-builder/frontend/src/components/ResumeForm.tsx:278-283 | exactly the entry at an in-range index goes, otherwise nothing changes |
| Draft.ChangeProject | ai-resume-builder/frontend/src/components/ResumeForm.tsx:213-217 | one field of one entry changes and nothing else |
| Draft.AddCertification | ai-resume-builder/frontend/src/components/ResumeForm.tsx:250-255 | one all-empty certification without a link appended, everything else kept |
| Draft.RemoveCertification | ai-resume-builder/frontend/src/components/ResumeForm.tsx:285-290 | exactly the entry at an in-range index goes, otherwise nothing changes |
| Draft.ChangeCertification | ai-resume-builder/frontend/src/components/ResumeForm.tsx:219-223 | one field of one entry changes and nothing else |
| Draft.AddAchievement | ai-resume-builder/frontend/src/components/ResumeForm.tsx:257-262 | one all-empty entry appended, everything else kept |
| Draft.RemoveAchievement | ai-resume-builder/frontend/src/components/ResumeForm.tsx:292-297 | exactly the entry at an in-range index goes, otherwise nothing changes |
| Draft.ChangeAchievement | ai-resume-builder/frontend/src/components/ResumeForm.tsx:225-229 | one field of one entry changes and nothing else |
| Draft.AddActivity | ai-resume-builder/frontend/src/components/ResumeForm.tsx:264-269 | one all-empty entry appended, everything else kept |
| Draft.RemoveActivity | ai-resume-builder/frontend/src/components/ResumeForm.tsx:299-304 | exactly the entry at an in-range index goes, otherwise nothing changes |
| Draft.ChangeActivity | ai-resume-builder/frontend/src/components/ResumeForm.tsx:231-235 | one field of one entry changes and nothing else |
| Draft.AddLanguage | ai-resume-builder/frontend/src/components/ResumeForm.tsx:271-276 | one all-empty entry appended, everything else kept |
| Draft.RemoveLanguage | ai-resume-builder/frontend/src/components/ResumeForm.tsx:306-311 | exactly the entry at an in-range index goes, otherwise nothing changes |
| Draft.ChangeLanguage | ai-resume-builder/frontend/src/components/ResumeForm.tsx:237-241 | one field of one entry changes and nothing else |
| FormEvents.RemovalKeepsAnEntry | ai-resume-builder/frontend/src/components/ResumeForm.tsx:603-956 | `Enabled` lets a remove button act exactly on a rendered entry of a section that has more than one entry. The add buttons are always enabled |
| FormEvents.StepKeepsEntries | ai-resume-builder/frontend/src/components/ResumeForm.tsx:603-956 | with every remove button disabled while its section has one entry, and the education button shown only above one, any single action keeps an entry in each of the seven sections |
| FormEvents.RunKeepsEntries | ai-resume-builder/frontend/src/components/ResumeForm.tsx:603-956 | any sequence of actions keeps that rule |
| FormEvents.SessionKeepsEntries | ai-resume-builder/frontend/src/components/ResumeForm.tsx:603-956 | from the initial draft, every section has an entry after any session of edits |
| FormEvents.UnguardedRemoveEmptiesSection | ai-resume-builder/frontend/src/components/ResumeForm.tsx:602-605 | the rule rests on the guards: removing the only experience entry is disabled, and the handler alone would empty the section |
| Workflow.ApiBaseUrl | ai-resume-builder/frontend/src/components/ResumeForm.fixed.tsx:6 | the base URL is the environment override when it is a non-empty string and `http://localhost:5000` otherwise; it is never empty |
| Workflow.OrElse | ai-resume-builder/frontend/src/components/ResumeForm.fixed.tsx:93 | `a \|\| b` is `a` when `a` is a non-empty string and `b` otherwise |
| Workflow.FailureMessage | ai-resume-builder/frontend/src/components/ResumeForm.fixed.tsx:96-106 | every failed submit shows a non-empty message: a server error's starts with "Server error: ", a request error's is "Request error: " followed by the error's own message, and no response and an unexpected error show their fixed texts |
| Workflow.FailureMessageNamesCause | ai-resume-builder/frontend/src/components/ResumeForm.fixed.tsx:96-106 | the message of a failure identifies its class: server error, no response, request error or unexpected error |
| Workflow.FailureMessagesDistinct | ai-resume-builder/frontend/src/components/ResumeForm.fixed.tsx:96-106 | failures of different classes never show the same message |
| Workflow.ServerErrorShowsStatus | ai-resume-builder/frontend/src/components/ResumeForm.fixed.tsx:98 | a server error message starts with "Server error: " followed by the response's status code, which can be read back from it |
| Workflow.ServerErrorShowsText | ai-resume-builder/frontend/src/components/ResumeForm.fixed.tsx:98 | after the status and " - ", a server error message shows the body's non-empty `error` text, or "Unknown error" when there is none or it is empty |
| Workflow.Submitted | ai-resume-builder/frontend/src/components/ResumeForm.tsx:332-356 | after a submit, loading is false. Success holds exactly when the answer carries a message, and then the error is empty and the URL is the base followed by the given path or `/download`. Otherwise the URL is empty and the error is the server's error, the fixed fallback, or the failure message |
| Workflow.DownloadOfferedAfterSubmit | ai-resume-builder/frontend/src/components/ResumeForm.tsx:393-399 | after a submit, a download is offered exactly when the submit succeeded |
| Workflow.Downloaded | ai-resume-builder/frontend/src/components/ResumeForm.fixed.tsx:112-138 | with no URL only the error changes, to "No resume available for download". Otherwise loading ends false, the success flag and URL are kept, and a failure shows the fixed download-failure message |
| Workflow.ResumeForm.constructor | ai-resume-builder/frontend/src/components/ResumeForm.fixed.tsx:6-69 | the component starts with the initial draft, an empty buffer, the idle outcome and the base URL from the environment. `ResumeForm.tsx` hard-codes `http://localhost:5000` at line 77, which is the constructor called with no override |
| Workflow.ResumeForm.Edit | ai-resume-builder/frontend/src/components/ResumeForm.tsx:141-311 | a form edit changes only the draft and sends nothing |
| Workflow.ResumeForm.StartSubmit | ai-resume-builder/frontend/src/components/ResumeForm.fixed.tsx:71-82 | starting a submit sets loading, clears error, success and URL, and posts the draft to base + `/generate` |
| Workflow.ResumeForm.FinishSubmit | ai-resume-builder/frontend/src/components/ResumeForm.fixed.tsx:84-109 | the try, catch and finally blocks leave exactly the state `Submitted` describes |
| Workflow.ResumeForm.Submit | ai-resume-builder/frontend/src/components/ResumeForm.tsx:313-358 | a whole submit sends one POST of the current draft and ends in the state `Submitted` describes, whatever the outcome before |
| Workflow.ResumeForm.Download | ai-resume-builder/frontend/src/components/ResumeForm.tsx:360-386 | with no URL nothing is requested and only the error is set; otherwise one GET of the URL is sent and the state becomes what `Downloaded` describes |
| Backend.ValidateInput | ai-resume-builder/app.py:102-111 | the fields are checked in list order, and the first absent or falsy one is reported as missing or empty. When all are filled, a non-list `skills` is reported. The input passes exactly when all are filled and `skills` is a list |
| Backend.AllPresent | ai-resume-builder/app.py:207 | `all(field in data ...)` holds exactly when every listed field is present |
| Backend.CheckRequiredKeys | ai-resume-builder/app.py:206-208 | the payload passes exactly when all eight keys are present, whatever their values; otherwise the error is "Missing required fields" |
| Backend.GetStyleConfig | ai-resume-builder/app.py:158-174 | missing keys default to classic, Calibri and normal. An unknown colour scheme fails, and the scheme is checked before the size. An unknown size fails. On success the colours and sizes are the table entries for the given or default names, and the font is passed through |
| Backend.MissingKeysDefault | ai-resume-builder/app.py:170-174 | a missing colour scheme or size never causes a failure; a missing colour scheme gives (0, 32, 96) / (0, 51, 153), a missing size 18 / 14 / 11, and a missing font Calibri |
| Backend.StyleDefaults | ai-resume-builder/app.py:170-174 | an empty style gives colours (0, 32, 96) / (0, 51, 153), Calibri and sizes 18 / 14 / 11 |
| Backend.SizePresetsOrdered | ai-resume-builder/app.py:164-168 | in each size preset name > heading > body, and each role grows from small through normal to large |
| Layout.ReadAll | ai-resume-builder/app.py:272 | a list is read exactly when every item can be read; it then gives one record per item, in order, each the reading of its item |
| Layout.ReadSection | ai-resume-builder/app.py:324-331 | a section read with `data.get` is empty when absent or falsy; a list is read item by item (`ReadAll`), and any other truthy value makes the payload malformed |
| Layout.ReadEntries | ai-resume-builder/app.py:302 | iterating the experience value reads a list item by item (`ReadAll`); any other value is read exactly when it is an empty string or an empty object, and then gives no entries |
| Layout.ReadTextList | ai-resume-builder/app.py:256-262 | `', '.join` of a list is readable exactly when every item is a string, and gives those strings in order; a string always gives its characters one by one; any other value is malformed |
| Layout.ReadHobbies | ai-resume-builder/app.py:428-438 | absent or falsy hobbies give nothing; otherwise the run's pieces are those of `ReadTextList`: the characters of a string or the strings of a list |
| Layout.Read | ai-resume-builder/app.py:216-436 | the payload is read exactly when the five texts are strings, the skills, experience, every optional section and the hobbies are readable. The record then holds the five strings, and each list field is exactly what its reader gives for the payload's value |
| Layout.ReadShapes | ai-resume-builder/app.py:216-436 | a text field that is not a string fails the read; a read payload has one experience entry per list item, and each optional section is empty when absent or falsy and has one entry per item when it is a list |
| Layout.HobbiesLineSnoc | ai-resume-builder/app.py:436 | each piece is written after all the pieces before it, with nothing in between: a piece "", "\r", "\n" or "\r\n" as a line break read back as "\n", any other piece as it is |
| Layout.HobbiesLineJoin | ai-resume-builder/app.py:436 | a list of pieces none of which becomes a break is written as the pieces joined with nothing between them |
| Layout.HobbiesBreaks | ai-resume-builder/app.py:436 | a hobbies string is written with the same length, each '\r' becoming '\n' and every other character kept |
| Layout.HobbiesTextKept | ai-resume-builder/app.py:436 | a hobbies string without '\r' is written exactly as given |
| Layout.LanguageTexts | ai-resume-builder/app.py:425 | the language texts are "name (proficiency)" for each entry, in order |
| Layout.AppendEducation | ai-resume-builder/app.py:273-293 | one education entry appends exactly its `EducationLines` |
| Layout.AddEducation | ai-resume-builder/app.py:272-293 | the loop appends, for each entry in order, the school line and the details line when there is one, as `EducationLines` specifies |
| Layout.AppendExperience | ai-resume-builder/app.py:303-321 | one experience entry appends exactly its `ExperienceLines` |
| Layout.AddExperience | ai-resume-builder/app.py:302-321 | the loop appends company, title with the dates run, and the description when there is one, for each entry in order |
| Layout.AppendProject | ai-resume-builder/app.py:332-346 | one project appends exactly its `ProjectLines` |
| Layout.AddProjects | ai-resume-builder/app.py:331-346 | the loop appends title, "Technologies: ..." and description lines for each project, each optional line only when non-empty |
| Layout.AddCertifications | ai-resume-builder/app.py:356-363 | the loop appends "name - issuer", followed by " (date)" when there is a date, for each certification |
| Layout.AppendAchievement | ai-resume-builder/app.py:374-387 | one achievement appends exactly its `AchievementLines` |
| Layout.AddAchievements | ai-resume-builder/app.py:373-387 | the loop appends the title with its optional date run and the optional description for each achievement |
| Layout.AppendActivity | ai-resume-builder/app.py:398-411 | one activity appends exactly its `ActivityLines` |
| Layout.AddActivities | ai-resume-builder/app.py:397-411 | the loop appends "title - organization" with its optional date run and the optional description for each activity |
| Layout.LanguagesLine | ai-resume-builder/app.py:421-425 | the loop builds exactly the " \| "-join of the language texts |
| Layout.WriteOpening | ai-resume-builder/app.py:216-262 | the document opens with the upper-cased name, the contact line, a spacer, the summary heading and text, the skills heading and the two skill lines |
| Layout.WriteMiddle | ai-resume-builder/app.py:266-321 | the education section only when it is non-empty, then the experience heading and its entries |
| Layout.WriteProjects | ai-resume-builder/app.py:324-346 | the projects section only when it is non-empty |
| Layout.WriteCertifications | ai-resume-builder/app.py:349-363 | the certifications section only when it is non-empty |
| Layout.WriteAchievements | ai-resume-builder/app.py:366-387 | the achievements section only when it is non-empty |
| Layout.WriteAwards | ai-resume-builder/app.py:324-387 | projects, certifications and achievements in that order |
| Layout.WriteClosing | ai-resume-builder/app.py:390-436 | the activities, languages and hobbies sections, each only when non-empty |
| Layout.WriteDocument | ai-resume-builder/app.py:216-436 | the paragraphs appended once the checks pass are exactly `Document` |
| Layout.Generate | ai-resume-builder/app.py:199-446 | a payload is rejected as missing fields exactly when a required key is absent. With the keys present, it fails on the style exactly when the style lookup fails, with that lookup's error. It succeeds exactly when the keys are present, the style is an object whose lookup succeeds, the font is a string or null whose characters XML allows, the payload is readable, and every paragraph of its `Document` holds only characters XML allows; the paragraphs are then the `Document` of the payload as read |
| Layout.GenerateStyleFailure | ai-resume-builder/app.py:209-212 | with the required keys present, the payload is refused for its style exactly when the style is an object (or absent, read as `{}`) whose lookup fails, and the refusal carries the lookup's cause |
| Layout.GenerateRefusesNonXml | ai-resume-builder/app.py:214-436 | a payload that passes the key, style and font checks is refused as not XML-compatible exactly when its font name, or a printed field of the payload as read, holds a character XML forbids (a control character other than tab, newline and carriage return, U+FFFE or U+FFFF) |
| Layout.XmlDocument | ai-resume-builder/app.py:216-436 | every paragraph of a résumé's document holds only XML characters exactly when every field the layout prints does: the five texts, the skill lists, the hobbies and the printed fields of every entry |
| Layout.XmlJoin | ai-resume-builder/app.py:256-262 | a list joined with a separator of XML characters, such as ", ", holds only XML characters exactly when every item does |
| Layout.XmlHobbies | ai-resume-builder/app.py:435-436 | the hobbies paragraph holds only XML characters exactly when every hobby does |
| Layout.XmlUpper | ai-resume-builder/app.py:220 | upper-casing the name neither adds nor removes characters XML forbids |
| Layout.GenerateDefaultStyle | ai-resume-builder/app.py:206-216 | a payload with the required keys and no style gets the default style and the Calibri font; it is accepted exactly when it is readable and its document holds only XML characters, and the answer is then that document |
| Layout.ReadableRead | ai-resume-builder/app.py:216-436 | a payload of string texts, string or string-list skills, readable experience and no other section is read, with the payload's name, email, phone and location |
| Layout.ReadablePayloadAccepted | ai-resume-builder/app.py:199-232 | every such payload without a style is read, and is accepted exactly when the fields it prints hold only characters XML allows; an accepted document opens with the upper-cased name and `email \| phone \| location` |
| Layout.GeneratedOpening | ai-resume-builder/app.py:219-231 | an accepted payload's document opens with the upper-cased name read and the contact line `email \| phone \| location` |
| Layout.GenerateResume | ai-resume-builder/app.py:199-446 | the checks come in order: required keys, then the style and the font it names, then the document, then the XML characters of every run. The result is the error or the document `Generate` specifies |
| Layout.BlankPayloadAccepted | ai-resume-builder/app.py:206-208 | only presence is checked: a payload of the eight keys with empty values is laid out, with the contact line " \|  \| " and the fixed headings |
| Layout.DocumentShape | ai-resume-builder/app.py:219-300 | the first paragraph is the upper-cased name and the second is `email \| phone \| location`. The opening has eight paragraphs. The experience heading follows the optional education section |
| Layout.EducationDetails | ai-resume-builder/app.py:278-293 | the school line carries " - degree" only with a degree. The details line exists only with a graduation date or a GPA. It holds "Graduation: d" and "GPA: g" for the non-empty ones, in that order, joined by " \| " |
| Layout.ExperienceDatesSuffix | ai-resume-builder/app.py:313-316 | the title line is the title, extended by " \| dates" exactly when there are dates |
| Layout.LanguagesLineShape | ai-resume-builder/app.py:421-425 | the languages line starts with the first entry and ends with the last. Its length is the entries' plus three per separator, so there is one " \| " between neighbours and nowhere else. A single language has no separator |
| TextGen.Message | ai-resume-builder/app.py:70-97 | every exception generate_text raises carries a non-empty text |
| TextGen.Clean | ai-resume-builder/app.py:82-84 | the clean-up never lengthens the stripped text, and a stripped text without either marker comes back unchanged |
| TextGen.FromField | ai-resume-builder/app.py:77-89 | an absent or falsy `generated_text` raises "Generated text is empty". A truthy value that is not a string, or a first item that is not an object, raises Python's attribute error. A string succeeds exactly when it survives the clean-up, and the result is the cleaned text |
| TextGen.GenerateText | ai-resume-builder/app.py:64-100 | succeeds exactly when the reply is a non-empty list whose first item holds a string `generated_text` that survives the clean-up, and then returns that cleaned text, never empty. A non-200 status, a timeout, a request failure or a body that is not a non-empty list each raise their own error. A non-empty list fails or succeeds as its first item's field decides |
| TextGen.Task | ai-resume-builder/app.py:178-184 | the template table has a task text exactly for "summary", "experience" and "skills" |
| TextGen.Prompt | ai-resume-builder/app.py:178-184 | there is a prompt exactly for "summary", "experience" and "skills". Each starts with "As a professional resume writer, " and ends with the content |
| TextGen.Formatted | ai-resume-builder/app.py:47-51 | the text sent is "<s>[INST] " and the fixed instruction with its blank line, then the prompt unchanged, then the blank line, the closing request and " [/INST]</s>" |
| TextGen.EnhanceContent | ai-resume-builder/app.py:176-189 | an unknown section type gives the content back unchanged, and so does a failed generation; a successful one gives the cleaned text; the result is never empty unless the content was |
| TextGen.CleanChangesOnlyMarkers | ai-resume-builder/app.py:82-84 | after stripping, the clean-up changes the text exactly when "[INST]" or "[/INST]" occurs in it |
| TextGen.NestedOpenMarkerSurvives | ai-resume-builder/app.py:84 | one pass does not remove every marker: "[[INST]INST]" cleans to "[INST]" |
| TextGen.NestedCloseMarkerSurvives | ai-resume-builder/app.py:84 | likewise "[[/INST]/INST]" cleans to "[/INST]" |
| TextGen.SpaceAfterMarkerSurvives | ai-resume-builder/app.py:82-84 | stripping comes before marker removal, so "[INST] Led" returns " Led", with leading whitespace |
| TextGen.WhitespaceReplyFailsAfterCleanup | ai-resume-builder/app.py:78-87 | a reply of whitespace only passes the first emptiness check and raises "empty after cleanup" |
| TextGen.MarkersOnlyReplyFailsAfterCleanup | ai-resume-builder/app.py:84-87 | a reply "[INST][/INST]" raises "empty after cleanup" |
| TextGen.RejectedAfterCleanup | ai-resume-builder/app.py:86-87 | a non-empty generated text that cleans to nothing raises "empty after cleanup" |

## Left out

- HTTP transport is not modelled: the axios POST and GET, the request to the language model, and Flask routing and CORS. Their outcomes are parameters.
- The browser's Blob and link download, `doc.save`, the `/download` file route and the logging are not modelled, because they are I/O with no logic.
- JSX rendering is not modelled. Only the enable and visibility conditions of the remove and download controls are kept, as `FormEvents.Enabled` and `Workflow.DownloadOffered`.
- python-docx formatting is left out: fonts, sizes, colours, bold, italics and alignment. The document is its sequence of paragraph texts. The style lookup is still modelled, because its failures decide the answer.
- `format_document` and the two test scripts are not part of this model. No route calls the first, and the scripts are network clients.
- The `newTechnicalSkill` and `newSoftSkill` buffers are not modelled: they have no handlers.
- Overlapping submits and downloads are left out. The model handles one event at a time.
- Draft.ChangeExperience: the change handlers require an index inside the list. With an index past the end, JavaScript would write a new sparse entry; no control ever passes one.
- Layout.Read: item fields and the name, email, phone, location and summary must be strings, or the payload is treated as malformed. Python would format numbers and other values into the f-strings.
- Layout.ReadHobbies: a JSON object given for hobbies is treated as malformed. python-docx would write its keys in insertion order, which an unordered map cannot represent.
- Layout.Document: python-docx writes a '\r' or '\n' in any run as a line break, read back as '\n'. The model applies this only to the hobbies run (`HobbyText`); in the name, contact line, summary, entries and other f-string paragraphs a '\r' is kept as written.
- Layout.Generate: the payload is taken to be a JSON object (`map<string, Json>`). A list or string body passes Python's `field in data` test when it contains the key names and then raises on `data.get`; that path is not modelled.
- Layout.ReadTextList: a JSON object given for technicalSkills or softSkills is treated as malformed. Python would join its keys in insertion order, which an unordered map cannot represent.
- Layout.Generate: Python raises at the first run, in document order, whose text XML forbids, so a payload that is both malformed further on and holds a forbidden character earlier is refused for the character; the model reports a malformed payload first. Only the font name is checked before the payload is read, as in the Python code. Both answers are status 500.
- Layout.GenerateResume: `GenerateError` names the cause of the status-500 answer, but not the text of the Python exception, except "Missing required fields".
- Json: numbers are integers only. Floats play no part in the payloads of this system.
- Strings.Upper: only ASCII letters are upper-cased; Python's full Unicode case mapping is not modelled.
- TextGen.Message: the text of UnexpectedFormat omits Python's rendering of the body. NotText stands for the AttributeError Python raises, whose text is not modelled.
- TextGen.GenerateText: a 200 reply whose body is not JSON is covered by `RequestFailed`, since requests raises one of its own exceptions for it.
- `validate_input` and `enhance_content` are modelled as written, although no route calls them.
