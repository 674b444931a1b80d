/**
  The CV editing form (src/components/CVForm.tsx).

  Every handler of the form builds the next document by copy-on-write and
  hands it to `setFormData` and to the optional `onChange` callback. The
  construction of the next document is written here as a pure function per
  handler (`EducationAdded`, `PhraseToggled`, ...), each with its frame
  stated through `SameExcept`; the component's three pieces of state are the
  fields of the class `FormState`, whose methods are the handlers.
*/
module CVForm {

  import opened Wrappers
  import opened CVTypes
  import opened Seqs
  import opened Text

  // ---------------------------------------------------------------------
  // The document the form starts from when it is given no initial data
  // ---------------------------------------------------------------------

  function DefaultDocument(): (d: CV)
    ensures d.id.None? && d.fileName.None? && d.createdAt.None? && d.updatedAt.None?
    ensures forall f :: GetPersonal(d.personalInfo, f) == ""
    ensures forall f :: GetSkill(d.skills, f) == ""
    ensures d.objective == ""
    ensures d.educationHistory == [] && d.workExperience == [] && d.certifications == [] && d.awards == []
  {
    CV(None, None, None, None,
       PersonalInfo("", "", "", "", "", ""),
       "",
       [], [], [], [],
       Skills("", "", ""))
  }

  // ---------------------------------------------------------------------
  // Collapsible sections (presentation state, never part of the document)
  // ---------------------------------------------------------------------

  datatype Section =
    BasicSection | EducationSection | ExperienceSection | CertificationsSection | AwardsSection | SkillsSection

  /** The map has a flag for every section. */
  predicate Complete(m: map<Section, bool>)
  {
    forall s: Section :: s in m
  }

  /** A map with an entry for each of the six sections by name is complete. */
  lemma NamesEverySection(m: map<Section, bool>)
    requires BasicSection in m && EducationSection in m && ExperienceSection in m
    requires CertificationsSection in m && AwardsSection in m && SkillsSection in m
    ensures Complete(m)
  {
    forall s: Section ensures s in m {
      match s
      case BasicSection =>
      case EducationSection =>
      case ExperienceSection =>
      case CertificationsSection =>
      case AwardsSection =>
      case SkillsSection =>
    }
  }

  /** Only the basic-information section starts expanded. */
  function InitialExpanded(): (m: map<Section, bool>)
    ensures Complete(m)
    ensures forall s :: s in m && (m[s] <==> s == BasicSection)
  {
    var m := map[BasicSection := true, EducationSection := false, ExperienceSection := false,
                 CertificationsSection := false, AwardsSection := false, SkillsSection := false];
    NamesEverySection(m);
    m
  }

  /** `toggleSection`: the flag of `s` is negated, every other flag kept. */
  function SectionToggled(m: map<Section, bool>, s: Section): (r: map<Section, bool>)
    requires s in m
    ensures r.Keys == m.Keys
    ensures r[s] == !m[s]
    ensures forall t :: t in m && t != s ==> r[t] == m[t]
  {
    m[s := !m[s]]
  }

  /** Toggling a section twice restores the flags. */
  lemma SectionToggledTwice(m: map<Section, bool>, s: Section)
    requires s in m
    ensures SectionToggled(SectionToggled(m, s), s) == m
  {
  }

  // ---------------------------------------------------------------------
  // Phrase suggestions
  // ---------------------------------------------------------------------

  /** The objective with `phrase` appended: the phrase alone when the
      objective is empty, otherwise after a single separating space. */
  function AppendPhrase(objective: string, phrase: string): (r: string)
    ensures |r| >= |phrase| && r[|r| - |phrase|..] == phrase
    ensures r[..|r| - |phrase|] == if objective == "" then "" else objective + " "
  {
    var head := if objective == "" then "" else objective + " ";
    assert (head + phrase)[..|head|] == head;
    head + phrase
  }

  /** The selected phrases with every copy of `phrase` dropped. */
  function Without(selected: seq<string>, phrase: string): (r: seq<string>)
    ensures phrase !in r
    ensures forall p :: p != phrase ==> (p in r <==> p in selected)
  {
    FilterMembers(selected, (p: string) => p != phrase);
    Filter(selected, (p: string) => p != phrase)
  }

  /** Dropping a phrase keeps every copy of every other phrase. */
  lemma WithoutCounts(selected: seq<string>, phrase: string, p: string)
    ensures multiset(Without(selected, phrase))[p] == if p == phrase then 0 else multiset(selected)[p]
  {
    FilterCounts(selected, (q: string) => q != phrase, p);
  }

  datatype PhraseToggle = PhraseToggle(doc: CV, selected: seq<string>)

  /** `togglePhrase`: whether the phrase counts as chosen is decided by the
      list of selected phrases. A chosen phrase is dropped from that list
      (every copy) and its first literal occurrence is cut out of the
      objective, which is then trimmed; any other phrase is appended to the
      list and to the objective. Only the objective of the document changes. */
  function PhraseToggled(d: CV, selected: seq<string>, phrase: string): (r: PhraseToggle)
    ensures SameExcept(d, r.doc, ObjectiveKey)
    ensures phrase in selected ==>
              && r.selected == Without(selected, phrase)
              && r.doc.objective == Trim(RemoveFirst(d.objective, phrase))
    ensures phrase !in selected ==>
              && r.selected == selected + [phrase]
              && r.doc.objective == AppendPhrase(d.objective, phrase)
  {
    if phrase in selected then
      PhraseToggle(d.(objective := Trim(RemoveFirst(d.objective, phrase))), Without(selected, phrase))
    else
      PhraseToggle(d.(objective := AppendPhrase(d.objective, phrase)), selected + [phrase])
  }

  /** Un-choosing a phrase that no longer occurs in the objective (it was
      edited away) only trims the objective. */
  lemma PhraseAbsentOnlyTrims(d: CV, selected: seq<string>, phrase: string)
    requires phrase in selected
    requires forall k: nat :: !OccursAt(d.objective, phrase, k)
    ensures PhraseToggled(d, selected, phrase).doc == d.(objective := Trim(d.objective))
  {
  }

  /** Cutting out an appended phrase and trimming gives back the objective,
      when the objective had no whitespace at either end and the phrase does
      not occur earlier in the extended objective. */
  lemma AppendThenRemovePhrase(objective: string, phrase: string)
    requires IsTrimmed(objective)
    requires forall k: nat :: k + |phrase| < |AppendPhrase(objective, phrase)| ==>
               !OccursAt(AppendPhrase(objective, phrase), phrase, k)
    ensures Trim(RemoveFirst(AppendPhrase(objective, phrase), phrase)) == objective
  {
    var a := AppendPhrase(objective, phrase);
    var n := |a| - |phrase|;
    assert a[n..] == phrase;
    assert OccursAt(a, phrase, n);
    assert RemoveFirst(a, phrase) == a[..n] + a[n + |phrase|..];
    if objective == "" {
      assert a[..n] + a[n + |phrase|..] == "";
    } else {
      assert a[..n] + a[n + |phrase|..] == objective + " ";
      TrimTrailingSpace(objective);
    }
  }

  /** Appending a phrase that was not selected and then dropping it gives
      back the selection. */
  lemma {:induction false} AppendThenDropPhrase(selected: seq<string>, phrase: string)
    requires phrase !in selected
    ensures Without(selected + [phrase], phrase) == selected
  {
    var keep := (p: string) => p != phrase;
    FilterConcat(selected, [phrase], keep);
    FilterKeepsAll(selected, keep);
    assert Filter([phrase], keep) == [];
  }

  /** Choosing a phrase and then un-choosing it restores both the document
      and the selection, provided the objective had no whitespace at either
      end and the phrase does not already occur earlier in the extended
      objective (it overlaps no other content). */
  lemma {:induction false} PhraseToggledTwice(d: CV, selected: seq<string>, phrase: string)
    requires phrase !in selected
    requires IsTrimmed(d.objective)
    requires forall k: nat :: k + |phrase| < |AppendPhrase(d.objective, phrase)| ==>
               !OccursAt(AppendPhrase(d.objective, phrase), phrase, k)
    ensures var once := PhraseToggled(d, selected, phrase);
            PhraseToggled(once.doc, once.selected, phrase) == PhraseToggle(d, selected)
  {
    var once := PhraseToggled(d, selected, phrase);
    assert once.doc == d.(objective := AppendPhrase(d.objective, phrase));
    assert once.selected == selected + [phrase];
    AppendThenRemovePhrase(d.objective, phrase);
    AppendThenDropPhrase(selected, phrase);
    var twice := PhraseToggled(once.doc, once.selected, phrase);
    assert twice.doc == once.doc.(objective := d.objective);
  }

  // ---------------------------------------------------------------------
  // handleChange and handleQuillChange
  // ---------------------------------------------------------------------

  /** The top-level string keys a name without a dot can address. */
  datatype TopField = Id | FileName | CreatedAt | UpdatedAt | Objective

  function KeyOf(f: TopField): Key
  {
    match f
    case Id => IdKey
    case FileName => FileNameKey
    case CreatedAt => CreatedAtKey
    case UpdatedAt => UpdatedAtKey
    case Objective => ObjectiveKey
  }

  function GetTop(d: CV, f: TopField): Option<string>
  {
    match f
    case Id => d.id
    case FileName => d.fileName
    case CreatedAt => d.createdAt
    case UpdatedAt => d.updatedAt
    case Objective => Some(d.objective)
  }

  /** An input's `name`: a top-level key, or a `section.field` pair into one
      of the two singleton records. */
  datatype FieldPath =
    | TopLevel(top: TopField)
    | PersonalInfoField(personal: PersonalField)
    | SkillsField(skill: SkillField)

  /** `{ ...formData, [f]: v }`: the top-level key `f` holds `v`, every other
      key is kept. */
  function TopFieldSet(d: CV, f: TopField, v: string): (r: CV)
    ensures GetTop(r, f) == Some(v)
    ensures SameExcept(d, r, KeyOf(f))
  {
    match f
    case Id => d.(id := Some(v))
    case FileName => d.(fileName := Some(v))
    case CreatedAt => d.(createdAt := Some(v))
    case UpdatedAt => d.(updatedAt := Some(v))
    case Objective => d.(objective := v)
  }

  /** `handleChange`: a dotted name replaces one field of one singleton
      record and keeps its siblings; a plain name replaces one top-level key. */
  function FieldChanged(d: CV, path: FieldPath, v: string): (r: CV)
    ensures path.TopLevel? ==> SameExcept(d, r, KeyOf(path.top)) && GetTop(r, path.top) == Some(v)
    ensures path.PersonalInfoField? ==>
              && SameExcept(d, r, PersonalInfoKey)
              && GetPersonal(r.personalInfo, path.personal) == v
              && forall g :: g != path.personal ==> GetPersonal(r.personalInfo, g) == GetPersonal(d.personalInfo, g)
    ensures path.SkillsField? ==>
              && SameExcept(d, r, SkillsKey)
              && GetSkill(r.skills, path.skill) == v
              && forall g :: g != path.skill ==> GetSkill(r.skills, g) == GetSkill(d.skills, g)
  {
    match path
    case TopLevel(f) => TopFieldSet(d, f, v)
    case PersonalInfoField(f) => d.(personalInfo := SetPersonal(d.personalInfo, f, v))
    case SkillsField(f) => d.(skills := SetSkill(d.skills, f, v))
  }

  /** The value an input name currently reads from the document; `None` for
      a metadata key the document does not carry. */
  function GetPath(d: CV, path: FieldPath): Option<string>
  {
    match path
    case TopLevel(f) => GetTop(d, f)
    case PersonalInfoField(f) => Some(GetPersonal(d.personalInfo, f))
    case SkillsField(f) => Some(GetSkill(d.skills, f))
  }

  /** Writing a field's current value back leaves the document as it was. */
  lemma {:induction false} FieldChangedToSame(d: CV, path: FieldPath)
    requires GetPath(d, path).Some?
    ensures FieldChanged(d, path, GetPath(d, path).value) == d
  {
    var r := FieldChanged(d, path, GetPath(d, path).value);
    match path
    case TopLevel(f) =>
    case PersonalInfoField(f) =>
      assert GetPersonal(r.personalInfo, NamaLengkap) == GetPersonal(d.personalInfo, NamaLengkap);
      assert GetPersonal(r.personalInfo, Email) == GetPersonal(d.personalInfo, Email);
      assert GetPersonal(r.personalInfo, NomorHp) == GetPersonal(d.personalInfo, NomorHp);
      assert GetPersonal(r.personalInfo, LinkedinUrl) == GetPersonal(d.personalInfo, LinkedinUrl);
      assert GetPersonal(r.personalInfo, PortofolioUrl) == GetPersonal(d.personalInfo, PortofolioUrl);
      assert GetPersonal(r.personalInfo, Alamat) == GetPersonal(d.personalInfo, Alamat);
    case SkillsField(f) =>
      assert GetSkill(r.skills, HardSkills) == GetSkill(d.skills, HardSkills);
      assert GetSkill(r.skills, SoftSkills) == GetSkill(d.skills, SoftSkills);
      assert GetSkill(r.skills, SoftwareSkills) == GetSkill(d.skills, SoftwareSkills);
  }

  // ---------------------------------------------------------------------
  // Education history
  // ---------------------------------------------------------------------

  function BlankEducation(): (e: Education)
    ensures forall f :: GetEducation(e, f) == ""
    ensures !e.currentlyStudying
  {
    Education("", "", "", "", "", "", "", "", "", false)
  }

  /** `addEducation`: one blank entry at the end, earlier entries kept. */
  function EducationAdded(d: CV): (r: CV)
    ensures SameExcept(d, r, EducationHistoryKey)
    ensures |r.educationHistory| == |d.educationHistory| + 1
    ensures r.educationHistory[..|d.educationHistory|] == d.educationHistory
    ensures r.educationHistory[|d.educationHistory|] == BlankEducation()
  {
    d.(educationHistory := d.educationHistory + [BlankEducation()])
  }

  /** `removeEducation`: `splice(index, 1)` on a copy of the list. */
  function EducationRemoved(d: CV, index: int): (r: CV)
    ensures SameExcept(d, r, EducationHistoryKey)
    ensures r.educationHistory == RemoveAt(d.educationHistory, index)
  {
    d.(educationHistory := RemoveAt(d.educationHistory, index))
  }

  /** `handleEducationChange`: one field of one entry takes the new value;
      the list keeps its length and every other entry. */
  function EducationChanged(d: CV, index: nat, c: EducationChange): (r: CV)
    requires index < |d.educationHistory|
    ensures SameExcept(d, r, EducationHistoryKey)
    ensures |r.educationHistory| == |d.educationHistory|
    ensures r.educationHistory[index] == ApplyEducationChange(d.educationHistory[index], c)
    ensures forall j :: 0 <= j < |d.educationHistory| && j != index ==> r.educationHistory[j] == d.educationHistory[j]
  {
    d.(educationHistory := d.educationHistory[index := ApplyEducationChange(d.educationHistory[index], c)])
  }

  /** Adding an entry and removing it again at the old length restores the
      document. */
  lemma EducationAddRemove(d: CV)
    ensures EducationRemoved(EducationAdded(d), |d.educationHistory|) == d
  {
    RemoveAppended(d.educationHistory, BlankEducation());
  }

  /** Ticking "currently studying" does not clear the end year. */
  lemma StudyingKeepsEndYear(d: CV, index: nat, studying: bool)
    requires index < |d.educationHistory|
    ensures EducationChanged(d, index, CurrentlyStudying(studying)).educationHistory[index].endYear
            == d.educationHistory[index].endYear
  {
    var e := d.educationHistory[index];
    assert GetEducation(ApplyEducationChange(e, CurrentlyStudying(studying)), EndYear) == GetEducation(e, EndYear);
  }

  // ---------------------------------------------------------------------
  // Work experience
  // ---------------------------------------------------------------------

  function BlankWork(): (w: WorkExperience)
    ensures forall f :: GetWork(w, f) == ""
    ensures !w.currentlyWorking
  {
    WorkExperience("", "", "", "", "", "", "", false)
  }

  /** `addWorkExperience`: one blank entry at the end, earlier entries kept. */
  function WorkAdded(d: CV): (r: CV)
    ensures SameExcept(d, r, WorkExperienceKey)
    ensures |r.workExperience| == |d.workExperience| + 1
    ensures r.workExperience[..|d.workExperience|] == d.workExperience
    ensures r.workExperience[|d.workExperience|] == BlankWork()
  {
    d.(workExperience := d.workExperience + [BlankWork()])
  }

  /** `removeWorkExperience`: `splice(index, 1)` on a copy of the list. */
  function WorkRemoved(d: CV, index: int): (r: CV)
    ensures SameExcept(d, r, WorkExperienceKey)
    ensures r.workExperience == RemoveAt(d.workExperience, index)
  {
    d.(workExperience := RemoveAt(d.workExperience, index))
  }

  /** `handleWorkExperienceChange`: one field of one entry takes the new
      value; the list keeps its length and every other entry. */
  function WorkChanged(d: CV, index: nat, c: WorkChange): (r: CV)
    requires index < |d.workExperience|
    ensures SameExcept(d, r, WorkExperienceKey)
    ensures |r.workExperience| == |d.workExperience|
    ensures r.workExperience[index] == ApplyWorkChange(d.workExperience[index], c)
    ensures forall j :: 0 <= j < |d.workExperience| && j != index ==> r.workExperience[j] == d.workExperience[j]
  {
    d.(workExperience := d.workExperience[index := ApplyWorkChange(d.workExperience[index], c)])
  }

  lemma WorkAddRemove(d: CV)
    ensures WorkRemoved(WorkAdded(d), |d.workExperience|) == d
  {
    RemoveAppended(d.workExperience, BlankWork());
  }

  /** Ticking "currently working" does not clear the end date. */
  lemma WorkingKeepsEndDate(d: CV, index: nat, working: bool)
    requires index < |d.workExperience|
    ensures WorkChanged(d, index, CurrentlyWorking(working)).workExperience[index].endDate
            == d.workExperience[index].endDate
  {
    var w := d.workExperience[index];
    assert GetWork(ApplyWorkChange(w, CurrentlyWorking(working)), EndDate) == GetWork(w, EndDate);
  }

  // ---------------------------------------------------------------------
  // Certifications
  // ---------------------------------------------------------------------

  function BlankCertification(): (c: Certification)
    ensures forall f :: GetCertification(c, f) == ""
  {
    Certification("", "", "", "")
  }

  /** `addCertification`: one blank entry at the end, earlier entries kept. */
  function CertificationAdded(d: CV): (r: CV)
    ensures SameExcept(d, r, CertificationsKey)
    ensures |r.certifications| == |d.certifications| + 1
    ensures r.certifications[..|d.certifications|] == d.certifications
    ensures r.certifications[|d.certifications|] == BlankCertification()
  {
    d.(certifications := d.certifications + [BlankCertification()])
  }

  /** `removeCertification`: `splice(index, 1)` on a copy of the list. */
  function CertificationRemoved(d: CV, index: int): (r: CV)
    ensures SameExcept(d, r, CertificationsKey)
    ensures r.certifications == RemoveAt(d.certifications, index)
  {
    d.(certifications := RemoveAt(d.certifications, index))
  }

  /** `handleCertificationChange`: one field of one entry takes the new
      value; the list keeps its length and every other entry. */
  function CertificationChanged(d: CV, index: nat, f: CertificationField, v: string): (r: CV)
    requires index < |d.certifications|
    ensures SameExcept(d, r, CertificationsKey)
    ensures |r.certifications| == |d.certifications|
    ensures GetCertification(r.certifications[index], f) == v
    ensures forall g :: g != f ==>
              GetCertification(r.certifications[index], g) == GetCertification(d.certifications[index], g)
    ensures forall j :: 0 <= j < |d.certifications| && j != index ==> r.certifications[j] == d.certifications[j]
  {
    d.(certifications := d.certifications[index := SetCertification(d.certifications[index], f, v)])
  }

  lemma CertificationAddRemove(d: CV)
    ensures CertificationRemoved(CertificationAdded(d), |d.certifications|) == d
  {
    RemoveAppended(d.certifications, BlankCertification());
  }

  // ---------------------------------------------------------------------
  // Awards
  // ---------------------------------------------------------------------

  function BlankAward(): (a: Award)
    ensures forall f :: GetAward(a, f) == ""
  {
    Award("", "", "")
  }

  /** `addAward`: one blank entry at the end, earlier entries kept. */
  function AwardAdded(d: CV): (r: CV)
    ensures SameExcept(d, r, AwardsKey)
    ensures |r.awards| == |d.awards| + 1
    ensures r.awards[..|d.awards|] == d.awards
    ensures r.awards[|d.awards|] == BlankAward()
  {
    d.(awards := d.awards + [BlankAward()])
  }

  /** `removeAward`: `splice(index, 1)` on a copy of the list. */
  function AwardRemoved(d: CV, index: int): (r: CV)
    ensures SameExcept(d, r, AwardsKey)
    ensures r.awards == RemoveAt(d.awards, index)
  {
    d.(awards := RemoveAt(d.awards, index))
  }

  /** `handleAwardChange`: one field of one entry takes the new value; the
      list keeps its length and every other entry. */
  function AwardChanged(d: CV, index: nat, f: AwardField, v: string): (r: CV)
    requires index < |d.awards|
    ensures SameExcept(d, r, AwardsKey)
    ensures |r.awards| == |d.awards|
    ensures GetAward(r.awards[index], f) == v
    ensures forall g :: g != f ==> GetAward(r.awards[index], g) == GetAward(d.awards[index], g)
    ensures forall j :: 0 <= j < |d.awards| && j != index ==> r.awards[j] == d.awards[j]
  {
    d.(awards := d.awards[index := SetAward(d.awards[index], f, v)])
  }

  lemma AwardAddRemove(d: CV)
    ensures AwardRemoved(AwardAdded(d), |d.awards|) == d
  {
    RemoveAppended(d.awards, BlankAward());
  }

  // ---------------------------------------------------------------------
  // The component's state
  // ---------------------------------------------------------------------

  class FormState {
    /** `formData`: the document being edited. */
    var formData: CV
    /** `expandedSections`. */
    var expanded: map<Section, bool>
    /** `selectedPhrases`. */
    var selectedPhrases: seq<string>
    /** Whether the parent passed an `onChange` callback. */
    const hasOnChange: bool
    /** Every document handed to `onChange`, oldest first. */
    var notified: seq<CV>

    ghost predicate Valid()
      reads this
    {
      Complete(expanded)
    }

    /** Mounting the form. With initial data, the document is that data and,
        when its objective is non-empty, the selected phrases are the ones
        the markup parser extracted from it (`parsedPhrases`); otherwise the
        document is the default one and nothing is selected. */
    constructor (initialData: Option<CV>, hasOnChange: bool, parsedPhrases: seq<string>)
      ensures Valid()
      ensures formData == (if initialData.Some? then initialData.value else DefaultDocument())
      ensures expanded == InitialExpanded()
      ensures selectedPhrases ==
                (if initialData.Some? && initialData.value.objective != "" then parsedPhrases else [])
      ensures this.hasOnChange == hasOnChange && notified == []
    {
      formData := if initialData.Some? then initialData.value else DefaultDocument();
      expanded := InitialExpanded();
      selectedPhrases := if initialData.Some? && initialData.value.objective != "" then parsedPhrases else [];
      this.hasOnChange := hasOnChange;
      notified := [];
    }

    /** `setFormData(next); onChange?.(next)`. */
    method Commit(next: CV)
      modifies this
      ensures formData == next
      ensures notified == old(notified) + (if hasOnChange then [next] else [])
      ensures expanded == old(expanded) && selectedPhrases == old(selectedPhrases)
    {
      formData := next;
      if hasOnChange {
        notified := notified + [next];
      }
    }

    method ToggleSection(s: Section)
      requires Valid()
      modifies this
      ensures Valid()
      ensures expanded == SectionToggled(old(expanded), s)
      ensures formData == old(formData) && selectedPhrases == old(selectedPhrases) && notified == old(notified)
    {
      expanded := SectionToggled(expanded, s);
    }

    method TogglePhrase(phrase: string)
      modifies this
      ensures var t := PhraseToggled(old(formData), old(selectedPhrases), phrase);
              formData == t.doc && selectedPhrases == t.selected
      ensures notified == old(notified) + (if hasOnChange then [formData] else [])
      ensures expanded == old(expanded)
    {
      var t := PhraseToggled(formData, selectedPhrases, phrase);
      selectedPhrases := t.selected;
      Commit(t.doc);
    }

    method HandleChange(path: FieldPath, value: string)
      modifies this
      ensures formData == FieldChanged(old(formData), path, value)
      ensures notified == old(notified) + (if hasOnChange then [formData] else [])
      ensures expanded == old(expanded) && selectedPhrases == old(selectedPhrases)
    {
      Commit(FieldChanged(formData, path, value));
    }

    method HandleQuillChange(value: string, field: TopField)
      modifies this
      ensures formData == TopFieldSet(old(formData), field, value)
      ensures notified == old(notified) + (if hasOnChange then [formData] else [])
      ensures expanded == old(expanded) && selectedPhrases == old(selectedPhrases)
    {
      Commit(TopFieldSet(formData, field, value));
    }

    method AddEducation()
      modifies this
      ensures formData == EducationAdded(old(formData))
      ensures notified == old(notified) + (if hasOnChange then [formData] else [])
      ensures expanded == old(expanded) && selectedPhrases == old(selectedPhrases)
    {
      Commit(EducationAdded(formData));
    }

    method RemoveEducation(index: int)
      modifies this
      ensures formData == EducationRemoved(old(formData), index)
      ensures notified == old(notified) + (if hasOnChange then [formData] else [])
      ensures expanded == old(expanded) && selectedPhrases == old(selectedPhrases)
    {
      Commit(EducationRemoved(formData, index));
    }

    method HandleEducationChange(index: nat, c: EducationChange)
      requires index < |formData.educationHistory|
      modifies this
      ensures formData == EducationChanged(old(formData), index, c)
      ensures notified == old(notified) + (if hasOnChange then [formData] else [])
      ensures expanded == old(expanded) && selectedPhrases == old(selectedPhrases)
    {
      Commit(EducationChanged(formData, index, c));
    }

    method AddWorkExperience()
      modifies this
      ensures formData == WorkAdded(old(formData))
      ensures notified == old(notified) + (if hasOnChange then [formData] else [])
      ensures expanded == old(expanded) && selectedPhrases == old(selectedPhrases)
    {
      Commit(WorkAdded(formData));
    }

    method RemoveWorkExperience(index: int)
      modifies this
      ensures formData == WorkRemoved(old(formData), index)
      ensures notified == old(notified) + (if hasOnChange then [formData] else [])
      ensures expanded == old(expanded) && selectedPhrases == old(selectedPhrases)
    {
      Commit(WorkRemoved(formData, index));
    }

    method HandleWorkExperienceChange(index: nat, c: WorkChange)
      requires index < |formData.workExperience|
      modifies this
      ensures formData == WorkChanged(old(formData), index, c)
      ensures notified == old(notified) + (if hasOnChange then [formData] else [])
      ensures expanded == old(expanded) && selectedPhrases == old(selectedPhrases)
    {
      Commit(WorkChanged(formData, index, c));
    }

    method AddCertification()
      modifies this
      ensures formData == CertificationAdded(old(formData))
      ensures notified == old(notified) + (if hasOnChange then [formData] else [])
      ensures expanded == old(expanded) && selectedPhrases == old(selectedPhrases)
    {
      Commit(CertificationAdded(formData));
    }

    method RemoveCertification(index: int)
      modifies this
      ensures formData == CertificationRemoved(old(formData), index)
      ensures notified == old(notified) + (if hasOnChange then [formData] else [])
      ensures expanded == old(expanded) && selectedPhrases == old(selectedPhrases)
    {
      Commit(CertificationRemoved(formData, index));
    }

    method HandleCertificationChange(index: nat, f: CertificationField, v: string)
      requires index < |formData.certifications|
      modifies this
      ensures formData == CertificationChanged(old(formData), index, f, v)
      ensures notified == old(notified) + (if hasOnChange then [formData] else [])
      ensures expanded == old(expanded) && selectedPhrases == old(selectedPhrases)
    {
      Commit(CertificationChanged(formData, index, f, v));
    }

    method AddAward()
      modifies this
      ensures formData == AwardAdded(old(formData))
      ensures notified == old(notified) + (if hasOnChange then [formData] else [])
      ensures expanded == old(expanded) && selectedPhrases == old(selectedPhrases)
    {
      Commit(AwardAdded(formData));
    }

    method RemoveAward(index: int)
      modifies this
      ensures formData == AwardRemoved(old(formData), index)
      ensures notified == old(notified) + (if hasOnChange then [formData] else [])
      ensures expanded == old(expanded) && selectedPhrases == old(selectedPhrases)
    {
      Commit(AwardRemoved(formData, index));
    }

    method HandleAwardChange(index: nat, f: AwardField, v: string)
      requires index < |formData.awards|
      modifies this
      ensures formData == AwardChanged(old(formData), index, f, v)
      ensures notified == old(notified) + (if hasOnChange then [formData] else [])
      ensures expanded == old(expanded) && selectedPhrases == old(selectedPhrases)
    {
      Commit(AwardChanged(formData, index, f, v));
    }
  }
}
