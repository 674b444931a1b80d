# CV editor and CV collection, modelled in Dafny

This project models the two stateful pieces of a résumé builder's web
client.

- **The CV editing form** (`src/components/CVForm.tsx`). It holds three pieces of state:
  - the document being edited (`formData`);
  - which of its six sections are expanded;
  - which suggested phrases have been chosen for the objective.

  Collapsing or expanding a section changes only the section flags. Every
  other handler builds the next document by copy-on-write and passes it to
  the optional `onChange` callback:
  - toggling a phrase;
  - editing a `section.field` input or the rich-text objective;
  - adding, removing or editing an entry of the four repeated lists (education, work
  experience, certifications, awards).
- **The CV collection provider** (`src/context/CVContext.tsx`). It caches the
  user's list of CVs. The list is reloaded wholesale after a fetch, a create
  or an update. It is filtered by id after a delete. A lookup returns the
  first CV with a given id.

Files:

- `wrappers.dfy` holds `Option`.
- `types.dfy` (module `CVTypes`) holds the document records of
  `src/types/index.ts`. The editor addresses fields by run-time string keys
  (`"personalInfo.email"`, `"endYear"`). Here those keys become typed field
  selectors. Each selector has a getter and a setter, and each setter obeys
  the lens laws: the chosen field takes the new value and every other field
  keeps its old value.
- `seqs.dfy` (module `Seqs`) holds `Array.prototype.filter` and
  `splice(start, 1)` with JavaScript's exact index rules. A negative start
  counts back from the end. A start at or past the end removes nothing.
- `text.dfy` (module `Text`) holds two string operations:
  - `String.prototype.trim`, using the ECMAScript whitespace and
    line-terminator set;
  - `String.prototype.replace` with a string pattern, which deletes only
    the first literal occurrence.
- `editor.dfy` (module `CVForm`) has one pure function per handler that
  builds the next document. Each function states its frame through
  `SameExcept`: every top-level key except one is unchanged. The class
  `FormState` holds the component's state and has one method per handler.
  The callback is modelled as the log `notified`, which records every
  document handed to `onChange`.
- `collection.dfy` (module `CVContext`) defines `find` and the delete filter
  as functions, and the class `CVProvider`, whose methods update its field
  `cvs`. Each remote call is reduced to its outcome, which is passed in as a
  parameter:
  - a flag that says whether the call resolved;
  - for a fetch, the returned list, or `None` when the fetch was rejected.

  The user id the provider reads from local storage is also a parameter.

Three behaviours of the code worth knowing:

- `togglePhrase` decides between removing and appending by checking whether
  the phrase is in the list of selected phrases. It does not check whether
  the phrase occurs in the objective. So when a selected phrase has been
  edited out of the objective, toggling it drops it from the selection and
  only trims the objective, as `PhraseAbsentOnlyTrims` shows.
- Removing an entry at an index outside the list is not an error. `splice`
  clamps the index, so nothing is removed when the index is at or past the
  end, and a negative index removes from the end.
- Toggling a phrase twice restores the objective at least when the
  objective has no whitespace at either end and the phrase does not occur
  earlier in the extended objective. These are the preconditions of
  `PhraseToggledTwice`; they are sufficient, not necessary.

## Model

| member | source | states |
|---|---|---|
| CVTypes.SetPersonal | src/components/CVForm.tsx:135-143 | the chosen `personalInfo` field holds the new value and the other five keep theirs |
| CVTypes.SetSkill | src/components/CVForm.tsx:135-143 | the chosen `skills` field holds the new value and the other two keep theirs |
| CVTypes.ApplyEducationChange | src/components/CVForm.tsx:204-208 | a text edit sets that field and keeps every other field and the "currently studying" flag; a flag edit sets the flag and keeps every text field |
| CVTypes.ApplyWorkChange | src/components/CVForm.tsx:254-258 | a text edit sets that field and keeps every other field and the "currently working" flag; a flag edit sets the flag and keeps every text field |
| CVTypes.SetCertification | src/components/CVForm.tsx:300-304 | the chosen certification field holds the new value and the others keep theirs |
| CVTypes.SetAward | src/components/CVForm.tsx:341-345 | the chosen award field holds the new value and the others keep theirs |
| Seqs.Filter | src/context/CVContext.tsx:69 | filtering never lengthens the list |
| Seqs.FilterMembers | src/context/CVContext.tsx:69 | an element is in the result exactly when it is in the input and passes the test |
| Seqs.FilterCounts | src/context/CVContext.tsx:69 | every copy of a kept element survives and no copy of a dropped one does |
| Seqs.FilterConcat | src/context/CVContext.tsx:69 | filtering a concatenation filters each part, so survivors keep their relative order |
| Seqs.FilterKeepsAll | src/context/CVContext.tsx:69 | when every element passes, the list comes back unchanged |
| Seqs.SpliceStart | src/components/CVForm.tsx:190 | the start index `splice` uses: an in-range start as given, a negative start counted from the end and clamped at 0, a start past the end clamped to the length |
| Seqs.RemoveAt | src/components/CVForm.tsx:189-190 | when the start falls inside the list, the length drops by one, earlier elements stay and later ones move down by one; at the end, nothing changes |
| Seqs.RemoveAppended | src/components/CVForm.tsx:165-197 | removing at the old length the element just appended restores the list |
| Text.SkipLeading | src/components/CVForm.tsx:116 | everything skipped is whitespace, and the scan stops at a non-whitespace character or the end |
| Text.SkipTrailing | src/components/CVForm.tsx:116 | everything cut from the end is whitespace, and the last character kept is not whitespace |
| Text.Trim | src/components/CVForm.tsx:116 | the result is a slice of the input with only whitespace around it, and neither of its ends is whitespace |
| Text.TrimTrimmed | src/components/CVForm.tsx:116 | a string without whitespace at either end is its own trim |
| Text.TrimIdempotent | src/components/CVForm.tsx:116 | trimming twice is trimming once |
| Text.TrimTrailingSpace | src/components/CVForm.tsx:116-119 | the separating space left behind by removing an appended phrase is trimmed away |
| Text.IndexOfFrom | src/components/CVForm.tsx:116 | the index found is the first occurrence at or after the starting point; no index means no occurrence there |
| Text.RemoveFirst | src/components/CVForm.tsx:116 | with no occurrence the string is kept; otherwise exactly the first occurrence is cut out |
| CVForm.DefaultDocument | src/components/CVForm.tsx:20-41 | the default document has no metadata, empty personal-info and skills fields, an empty objective and four empty lists |
| CVForm.NamesEverySection | src/components/CVForm.tsx:43-50 | a map that names the six sections has a flag for every section |
| CVForm.InitialExpanded | src/components/CVForm.tsx:43-50 | every section has a flag, and only the basic-information section starts expanded |
| CVForm.SectionToggled | src/components/CVForm.tsx:98-103 | the toggled section's flag is negated and every other flag is kept |
| CVForm.SectionToggledTwice | src/components/CVForm.tsx:98-103 | toggling a section twice restores the flags |
| CVForm.AppendPhrase | src/components/CVForm.tsx:119 | the new objective ends with the phrase, preceded by nothing when the objective was empty and by the objective and one space otherwise |
| CVForm.Without | src/components/CVForm.tsx:115 | the phrase is gone from the selection and every other phrase is in it exactly when it was before |
| CVForm.WithoutCounts | src/components/CVForm.tsx:115 | every copy of the phrase is dropped and every copy of the others is kept |
| CVForm.PhraseToggled | src/components/CVForm.tsx:110-125 | only the objective changes; a selected phrase is dropped from the selection and its first occurrence is cut from the objective, which is then trimmed; any other phrase is appended to both |
| CVForm.PhraseAbsentOnlyTrims | src/components/CVForm.tsx:114-116 | un-choosing a phrase the objective no longer contains only trims the objective |
| CVForm.AppendThenRemovePhrase | src/components/CVForm.tsx:116-119 | cutting an appended phrase back out and trimming restores a trimmed objective, when the phrase does not occur earlier |
| CVForm.AppendThenDropPhrase | src/components/CVForm.tsx:115-118 | adding an unselected phrase to the selection and dropping it again restores the selection |
| CVForm.PhraseToggledTwice | src/components/CVForm.tsx:110-128 | choosing and then un-choosing a phrase restores both the document and the selection, under the conditions above |
| CVForm.TopFieldSet | src/components/CVForm.tsx:156-163 | the addressed top-level key holds the new value and every other key is kept |
| CVForm.FieldChanged | src/components/CVForm.tsx:130-154 | a dotted name changes one field of one record and keeps its siblings and every other top-level key; a plain name changes only that key |
| CVForm.FieldChangedToSame | src/components/CVForm.tsx:130-154 | writing the value a name currently reads back through `handleChange` leaves the document unchanged, for every name |
| CVForm.BlankEducation | src/components/CVForm.tsx:170-181 | a new education entry has empty text fields and is not marked as current |
| CVForm.EducationAdded | src/components/CVForm.tsx:165-186 | one blank entry is appended to the education list, earlier entries are kept and nothing else changes |
| CVForm.EducationRemoved | src/components/CVForm.tsx:188-197 | the education list loses the entry at the `splice` index and nothing else changes |
| CVForm.EducationChanged | src/components/CVForm.tsx:199-215 | one entry gets the change, the list keeps its length and its other entries, and nothing else changes |
| CVForm.EducationAddRemove | src/components/CVForm.tsx:165-197 | adding an education entry and removing it at the old length restores the document |
| CVForm.StudyingKeepsEndYear | src/components/CVForm.tsx:700-713 | ticking "currently studying" leaves the end year as it was |
| CVForm.BlankWork | src/components/CVForm.tsx:222-231 | a new work entry has empty text fields and is not marked as current |
| CVForm.WorkAdded | src/components/CVForm.tsx:217-236 | one blank entry is appended to the work list, earlier entries are kept and nothing else changes |
| CVForm.WorkRemoved | src/components/CVForm.tsx:238-247 | the work list loses the entry at the `splice` index and nothing else changes |
| CVForm.WorkChanged | src/components/CVForm.tsx:249-265 | one entry gets the change, the list keeps its length and its other entries, and nothing else changes |
| CVForm.WorkAddRemove | src/components/CVForm.tsx:217-247 | adding a work entry and removing it at the old length restores the document |
| CVForm.WorkingKeepsEndDate | src/components/CVForm.tsx:877-890 | ticking "currently working" leaves the end date as it was |
| CVForm.BlankCertification | src/components/CVForm.tsx:272-277 | a new certification has empty fields |
| CVForm.CertificationAdded | src/components/CVForm.tsx:267-282 | one blank certification is appended, earlier ones are kept and nothing else changes |
| CVForm.CertificationRemoved | src/components/CVForm.tsx:284-293 | the certification list loses the entry at the `splice` index and nothing else changes |
| CVForm.CertificationChanged | src/components/CVForm.tsx:295-311 | one field of one certification takes the value, its other fields, the other entries and the length are kept, and nothing else changes |
| CVForm.CertificationAddRemove | src/components/CVForm.tsx:267-293 | adding a certification and removing it at the old length restores the document |
| CVForm.BlankAward | src/components/CVForm.tsx:318-322 | a new award has empty fields |
| CVForm.AwardAdded | src/components/CVForm.tsx:313-327 | one blank award is appended, earlier ones are kept and nothing else changes |
| CVForm.AwardRemoved | src/components/CVForm.tsx:329-338 | the award list loses the entry at the `splice` index and nothing else changes |
| CVForm.AwardChanged | src/components/CVForm.tsx:340-352 | one field of one award takes the value, its other fields, the other entries and the length are kept, and nothing else changes |
| CVForm.AwardAddRemove | src/components/CVForm.tsx:313-338 | adding an award and removing it at the old length restores the document |
| CVForm.FormState.constructor | src/components/CVForm.tsx:20-78 | the document is the initial data or the default one; only the basic section is expanded; the selection is the parsed phrases when the initial objective is non-empty and empty otherwise |
| CVForm.FormState.Commit | src/components/CVForm.tsx:126-127 | the document is replaced, and it is handed to `onChange` exactly when the callback is present |
| CVForm.FormState.ToggleSection | src/components/CVForm.tsx:98-103 | the expansion flags are toggled at one section, every section keeps a flag, and the document is untouched |
| CVForm.FormState.TogglePhrase | src/components/CVForm.tsx:110-128 | document and selection become the result of the phrase toggle, and the new document is handed to `onChange` |
| CVForm.FormState.HandleChange | src/components/CVForm.tsx:130-154 | the document becomes the field change of the old one, and it is handed to `onChange` |
| CVForm.FormState.HandleQuillChange | src/components/CVForm.tsx:156-163 | the addressed top-level key takes the editor's value, and the document is handed to `onChange` |
| CVForm.FormState.AddEducation | src/components/CVForm.tsx:165-186 | the document becomes the one with an education entry added, and it is handed to `onChange` |
| CVForm.FormState.RemoveEducation | src/components/CVForm.tsx:188-197 | the document becomes the one with the education entry removed, and it is handed to `onChange` |
| CVForm.FormState.HandleEducationChange | src/components/CVForm.tsx:199-215 | the document becomes the one with the education entry changed, and it is handed to `onChange` |
| CVForm.FormState.AddWorkExperience | src/components/CVForm.tsx:217-236 | the document becomes the one with a work entry added, and it is handed to `onChange` |
| CVForm.FormState.RemoveWorkExperience | src/components/CVForm.tsx:238-247 | the document becomes the one with the work entry removed, and it is handed to `onChange` |
| CVForm.FormState.HandleWorkExperienceChange | src/components/CVForm.tsx:249-265 | the document becomes the one with the work entry changed, and it is handed to `onChange` |
| CVForm.FormState.AddCertification | src/components/CVForm.tsx:267-282 | the document becomes the one with a certification added, and it is handed to `onChange` |
| CVForm.FormState.RemoveCertification | src/components/CVForm.tsx:284-293 | the document becomes the one with the certification removed, and it is handed to `onChange` |
| CVForm.FormState.HandleCertificationChange | src/components/CVForm.tsx:295-311 | the document becomes the one with the certification changed, and it is handed to `onChange` |
| CVForm.FormState.AddAward | src/components/CVForm.tsx:313-327 | the document becomes the one with an award added, and it is handed to `onChange` |
| CVForm.FormState.RemoveAward | src/components/CVForm.tsx:329-338 | the document becomes the one with the award removed, and it is handed to `onChange` |
| CVForm.FormState.HandleAwardChange | src/components/CVForm.tsx:340-352 | the document becomes the one with the award changed, and it is handed to `onChange` |
| CVContext.FindById | src/context/CVContext.tsx:75-77 | nothing is found exactly when no CV has the id; anything found is in the list and has the id |
| CVContext.FindByIdIsFirst | src/context/CVContext.tsx:75-77 | the CV found is the one at the first index that has the id |
| CVContext.RemoveById | src/context/CVContext.tsx:69 | a CV remains exactly when it was there and has another id |
| CVContext.RemoveByIdCounts | src/context/CVContext.tsx:69 | every copy of a CV with another id is kept and none with the deleted id |
| CVContext.RemoveByIdConcat | src/context/CVContext.tsx:69 | deleting from a concatenation deletes from each part, so the remaining CVs keep their order |
| CVContext.RemoveAbsentId | src/context/CVContext.tsx:69 | deleting an id no CV has leaves the list unchanged |
| CVContext.RemoveByIdCons | src/context/CVContext.tsx:69 | deleting from a list drops its head exactly when the head has the id, and keeps the head in front otherwise |
| CVContext.FindDeleted | src/context/CVContext.tsx:66-77 | after a delete, a lookup of the deleted id finds nothing |
| CVContext.FindOtherAfterDelete | src/context/CVContext.tsx:66-77 | after a delete, a lookup of any other id finds what it found before |
| CVContext.DeleteMiddleOfThree | src/context/CVContext.tsx:66-69 | deleting the middle one of three CVs leaves the outer two in order |
| CVContext.CVProvider.constructor | src/context/CVContext.tsx:26 | the collection starts empty |
| CVContext.CVProvider.LoadCVs | src/context/CVContext.tsx:28-38 | with a non-empty stored user id and a fetch that resolved, the list is replaced by the fetched one; otherwise it is unchanged |
| CVContext.CVProvider.AddCV | src/context/CVContext.tsx:44-53 | success is reported exactly when the create resolved; the list is then reloaded, and a failed create leaves it unchanged |
| CVContext.CVProvider.UpdateCV | src/context/CVContext.tsx:55-64 | success is reported exactly when the update resolved; the list is then reloaded, and a failed update leaves it unchanged |
| CVContext.CVProvider.DeleteCV | src/context/CVContext.tsx:66-73 | after a resolved delete the list is the old one without the CVs that have the id; a rejected delete leaves it unchanged |
| CVContext.CVProvider.GetCVById | src/context/CVContext.tsx:75-77 | the lookup on the cached list: nothing exactly when no CV has the id, otherwise a CV with that id that is in the list |

## Left out

- The debounced autosave of the create and edit pages. It depends on timers and on asynchronous in-flight requests.
- `parseObjective`. It calls the browser's `DOMParser`, a foreign HTML parser. Its result is a parameter of `CVForm.FormState.constructor`.
- The HTTP client `src/services/api.ts` is not part of this model. Every remote call is reduced to a success flag, or to the list a fetch returned.
- Loading the position catalogue and its phrases, and `handlePositionSelect`. These are network calls plus UI state that no modelled handler reads.
- The phrase-panel visibility flag. It is UI state only.
- Submission, download, rendering and the JSX of the form.
- Rich-text editor internals. The objective is an opaque string.
- The `useCV` guard, which throws outside a provider. Context wiring is React plumbing.
- React's batching of state updates, and interleavings of asynchronous calls. Each handler is modelled as one atomic step.
- CVForm.FormState.HandleEducationChange, CVForm.FormState.HandleWorkExperienceChange, CVForm.FormState.HandleCertificationChange and CVForm.FormState.HandleAwardChange require an index inside the list. Writing past the end of a JavaScript array leaves holes in it, and every caller passes the index of an entry it is rendering.
- CVForm.FieldChanged covers the `personalInfo.*` and `skills.*` names, the only names the form's inputs carry, and the plain-name branch of `handleChange` for the string-valued top-level keys, which no input reaches. Arbitrary string keys are outside the typed selectors. So is a name with more than two segments, whose extra segments `split` drops.
- CVForm.TopFieldSet writes only string-valued top-level keys; the form calls `handleQuillChange` only with `objective`. A string written over one of the lists or records is not representable.
- Text.Trim works on Unicode scalar values, not on UTF-16 code units. A surrogate pair is one character here.
- Seqs.SpliceStart takes an integer index. The fractional and non-numeric indices that JavaScript coerces are not modelled.
- CVContext.CVProvider.LoadCVs does not model the local-storage read; the stored user id is a parameter.
- The error logging by `console.error`.
