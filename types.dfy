/**
  The CV document (src/types/index.ts) as values, and the typed field
  selectors that stand for the string keys the editor dispatches on at run
  time (`"personalInfo.email"`, `handleEducationChange(i, "endYear", v)`).
  Each record has a getter and a setter per selector; the setter's contract
  is the usual lens law: the selected field takes the new value and every
  other field keeps its old one.
*/
module CVTypes {

  import opened Wrappers

  datatype PersonalInfo = PersonalInfo(
    namaLengkap: string,
    email: string,
    nomorHp: string,
    linkedinUrl: string,
    portofolioUrl: string,
    alamat: string)

  datatype Education = Education(
    institution: string,
    location: string,
    startYear: string,
    endYear: string,
    educationLevel: string,
    program: string,
    gpa: string,
    maxGpa: string,
    description: string,
    currentlyStudying: bool)

  datatype WorkExperience = WorkExperience(
    institution: string,
    position: string,
    employeeStatus: string,
    startDate: string,
    endDate: string,
    location: string,
    description: string,
    currentlyWorking: bool)

  datatype Certification = Certification(name: string, issuer: string, number: string, year: string)

  datatype Award = Award(name: string, issuer: string, year: string)

  datatype Skills = Skills(hardSkills: string, softSkills: string, softwareSkills: string)

  /** The root document. The four metadata fields are assigned by the server;
      a document built by the editor from scratch has none of them (`None`
      stands for a key that is absent from the object). */
  datatype CV = CV(
    id: Option<string>,
    fileName: Option<string>,
    createdAt: Option<string>,
    updatedAt: Option<string>,
    personalInfo: PersonalInfo,
    objective: string,
    educationHistory: seq<Education>,
    workExperience: seq<WorkExperience>,
    certifications: seq<Certification>,
    awards: seq<Award>,
    skills: Skills)

  // ---------------------------------------------------------------------
  // Top-level keys of a CV, used to state "only this key changed".
  // ---------------------------------------------------------------------

  datatype Key =
    | IdKey | FileNameKey | CreatedAtKey | UpdatedAtKey | PersonalInfoKey | ObjectiveKey
    | EducationHistoryKey | WorkExperienceKey | CertificationsKey | AwardsKey | SkillsKey

  /** Every top-level key other than `k` holds the same value in `a` and `b`. */
  predicate SameExcept(a: CV, b: CV, k: Key)
  {
    && (k == IdKey || a.id == b.id)
    && (k == FileNameKey || a.fileName == b.fileName)
    && (k == CreatedAtKey || a.createdAt == b.createdAt)
    && (k == UpdatedAtKey || a.updatedAt == b.updatedAt)
    && (k == PersonalInfoKey || a.personalInfo == b.personalInfo)
    && (k == ObjectiveKey || a.objective == b.objective)
    && (k == EducationHistoryKey || a.educationHistory == b.educationHistory)
    && (k == WorkExperienceKey || a.workExperience == b.workExperience)
    && (k == CertificationsKey || a.certifications == b.certifications)
    && (k == AwardsKey || a.awards == b.awards)
    && (k == SkillsKey || a.skills == b.skills)
  }

  // ---------------------------------------------------------------------
  // personalInfo.* and skills.* (the two-segment names of handleChange)
  // ---------------------------------------------------------------------

  datatype PersonalField = NamaLengkap | Email | NomorHp | LinkedinUrl | PortofolioUrl | Alamat

  function GetPersonal(p: PersonalInfo, f: PersonalField): string
  {
    match f
    case NamaLengkap => p.namaLengkap
    case Email => p.email
    case NomorHp => p.nomorHp
    case LinkedinUrl => p.linkedinUrl
    case PortofolioUrl => p.portofolioUrl
    case Alamat => p.alamat
  }

  function SetPersonal(p: PersonalInfo, f: PersonalField, v: string): (r: PersonalInfo)
    ensures GetPersonal(r, f) == v
    ensures forall g :: g != f ==> GetPersonal(r, g) == GetPersonal(p, g)
  {
    match f
    case NamaLengkap => p.(namaLengkap := v)
    case Email => p.(email := v)
    case NomorHp => p.(nomorHp := v)
    case LinkedinUrl => p.(linkedinUrl := v)
    case PortofolioUrl => p.(portofolioUrl := v)
    case Alamat => p.(alamat := v)
  }

  datatype SkillField = HardSkills | SoftSkills | SoftwareSkills

  function GetSkill(s: Skills, f: SkillField): string
  {
    match f
    case HardSkills => s.hardSkills
    case SoftSkills => s.softSkills
    case SoftwareSkills => s.softwareSkills
  }

  function SetSkill(s: Skills, f: SkillField, v: string): (r: Skills)
    ensures GetSkill(r, f) == v
    ensures forall g :: g != f ==> GetSkill(r, g) == GetSkill(s, g)
  {
    match f
    case HardSkills => s.(hardSkills := v)
    case SoftSkills => s.(softSkills := v)
    case SoftwareSkills => s.(softwareSkills := v)
  }

  // ---------------------------------------------------------------------
  // Sub-records of the four repeated lists
  // ---------------------------------------------------------------------

  /** The text fields of an education entry. */
  datatype EducationField =
    Institution | Location | StartYear | EndYear | EducationLevel | Program | Gpa | MaxGpa | Description

  /** One call of handleEducationChange: a text field, or the check box. */
  datatype EducationChange =
    | EducationText(field: EducationField, text: string)
    | CurrentlyStudying(studying: bool)

  function GetEducation(e: Education, f: EducationField): string
  {
    match f
    case Institution => e.institution
    case Location => e.location
    case StartYear => e.startYear
    case EndYear => e.endYear
    case EducationLevel => e.educationLevel
    case Program => e.program
    case Gpa => e.gpa
    case MaxGpa => e.maxGpa
    case Description => e.description
  }

  function ApplyEducationChange(e: Education, c: EducationChange): (r: Education)
    ensures c.EducationText? ==> GetEducation(r, c.field) == c.text
    ensures c.CurrentlyStudying? ==> r.currentlyStudying == c.studying
    ensures c.EducationText? ==> r.currentlyStudying == e.currentlyStudying
    ensures forall g :: (c.CurrentlyStudying? || g != c.field) ==> GetEducation(r, g) == GetEducation(e, g)
  {
    match c
    case CurrentlyStudying(b) => e.(currentlyStudying := b)
    case EducationText(f, v) =>
      match f
      case Institution => e.(institution := v)
      case Location => e.(location := v)
      case StartYear => e.(startYear := v)
      case EndYear => e.(endYear := v)
      case EducationLevel => e.(educationLevel := v)
      case Program => e.(program := v)
      case Gpa => e.(gpa := v)
      case MaxGpa => e.(maxGpa := v)
      case Description => e.(description := v)
  }

  /** The text fields of a work-experience entry. */
  datatype WorkField = Institution | Position | EmployeeStatus | StartDate | EndDate | Location | Description

  /** One call of handleWorkExperienceChange: a text field, or the check box. */
  datatype WorkChange =
    | WorkText(field: WorkField, text: string)
    | CurrentlyWorking(working: bool)

  function GetWork(w: WorkExperience, f: WorkField): string
  {
    match f
    case Institution => w.institution
    case Position => w.position
    case EmployeeStatus => w.employeeStatus
    case StartDate => w.startDate
    case EndDate => w.endDate
    case Location => w.location
    case Description => w.description
  }

  function ApplyWorkChange(w: WorkExperience, c: WorkChange): (r: WorkExperience)
    ensures c.WorkText? ==> GetWork(r, c.field) == c.text
    ensures c.CurrentlyWorking? ==> r.currentlyWorking == c.working
    ensures c.WorkText? ==> r.currentlyWorking == w.currentlyWorking
    ensures forall g :: (c.CurrentlyWorking? || g != c.field) ==> GetWork(r, g) == GetWork(w, g)
  {
    match c
    case CurrentlyWorking(b) => w.(currentlyWorking := b)
    case WorkText(f, v) =>
      match f
      case Institution => w.(institution := v)
      case Position => w.(position := v)
      case EmployeeStatus => w.(employeeStatus := v)
      case StartDate => w.(startDate := v)
      case EndDate => w.(endDate := v)
      case Location => w.(location := v)
      case Description => w.(description := v)
  }

  datatype CertificationField = Name | Issuer | Number | Year

  function GetCertification(c: Certification, f: CertificationField): string
  {
    match f
    case Name => c.name
    case Issuer => c.issuer
    case Number => c.number
    case Year => c.year
  }

  function SetCertification(c: Certification, f: CertificationField, v: string): (r: Certification)
    ensures GetCertification(r, f) == v
    ensures forall g :: g != f ==> GetCertification(r, g) == GetCertification(c, g)
  {
    match f
    case Name => c.(name := v)
    case Issuer => c.(issuer := v)
    case Number => c.(number := v)
    case Year => c.(year := v)
  }

  datatype AwardField = Name | Issuer | Year

  function GetAward(a: Award, f: AwardField): string
  {
    match f
    case Name => a.name
    case Issuer => a.issuer
    case Year => a.year
  }

  function SetAward(a: Award, f: AwardField, v: string): (r: Award)
    ensures GetAward(r, f) == v
    ensures forall g :: g != f ==> GetAward(r, g) == GetAward(a, g)
  {
    match f
    case Name => a.(name := v)
    case Issuer => a.(issuer := v)
    case Year => a.(year := v)
  }
}
