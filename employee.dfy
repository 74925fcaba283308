/**
 * The raw employee record that the input form collects: six numeric or
 * ordinal fields and six categorical fields drawn from closed option lists.
 */
module EmployeeForm {

  datatype Gender = Male | Female

  datatype OverTime = No | Yes

  datatype JobRole =
    | HumanResources
    | LaboratoryTechnician
    | Manager
    | ManufacturingDirector
    | ResearchDirector
    | ResearchScientist
    | SalesExecutive
    | SalesRepresentative

  datatype EducationField = LifeSciences | Marketing | Medical | Other | TechnicalDegree

  datatype BusinessTravel = NonTravel | TravelRarely | TravelFrequently

  datatype MaritalStatus = Divorced | Married | Single

  datatype EmployeeInput = EmployeeInput(
    age: int,
    monthlyIncome: int,
    jobSatisfaction: int,
    environmentSatisfaction: int,
    yearsAtCompany: int,
    workLifeBalance: int,
    gender: Gender,
    overTime: OverTime,
    jobRole: JobRole,
    educationField: EducationField,
    businessTravel: BusinessTravel,
    maritalStatus: MaritalStatus)

  /** The text each option list shows, which is also the value the form returns. */
  const GenderOptions: seq<string> := ["Male", "Female"]
  const OverTimeOptions: seq<string> := ["No", "Yes"]
  const JobRoleOptions: seq<string> := [
    "Human Resources", "Laboratory Technician", "Manager", "Manufacturing Director",
    "Research Director", "Research Scientist", "Sales Executive", "Sales Representative"]
  const EducationFieldOptions: seq<string> := ["Life Sciences", "Marketing", "Medical", "Other", "Technical Degree"]
  const BusinessTravelOptions: seq<string> := ["Non-Travel", "Travel_Rarely", "Travel_Frequently"]
  const MaritalStatusOptions: seq<string> := ["Divorced", "Married", "Single"]

  function GenderLabel(g: Gender): (s: string)
    ensures s in GenderOptions
    ensures (s == "Male") == (g == Male)
  {
    match g
    case Male => "Male"
    case Female => "Female"
  }

  function OverTimeLabel(o: OverTime): (s: string)
    ensures s in OverTimeOptions
    ensures (s == "Yes") == (o == Yes)
  {
    match o
    case No => "No"
    case Yes => "Yes"
  }

  function JobRoleLabel(r: JobRole): (s: string)
    ensures s in JobRoleOptions
  {
    match r
    case HumanResources => "Human Resources"
    case LaboratoryTechnician => "Laboratory Technician"
    case Manager => "Manager"
    case ManufacturingDirector => "Manufacturing Director"
    case ResearchDirector => "Research Director"
    case ResearchScientist => "Research Scientist"
    case SalesExecutive => "Sales Executive"
    case SalesRepresentative => "Sales Representative"
  }

  function EducationFieldLabel(e: EducationField): (s: string)
    ensures s in EducationFieldOptions
  {
    match e
    case LifeSciences => "Life Sciences"
    case Marketing => "Marketing"
    case Medical => "Medical"
    case Other => "Other"
    case TechnicalDegree => "Technical Degree"
  }

  function BusinessTravelLabel(b: BusinessTravel): (s: string)
    ensures s in BusinessTravelOptions
    ensures (s == "Travel_Rarely") == (b == TravelRarely)
    ensures (s == "Travel_Frequently") == (b == TravelFrequently)
  {
    match b
    case NonTravel => "Non-Travel"
    case TravelRarely => "Travel_Rarely"
    case TravelFrequently => "Travel_Frequently"
  }

  function MaritalStatusLabel(m: MaritalStatus): (s: string)
    ensures s in MaritalStatusOptions
    ensures (s == "Married") == (m == Married)
    ensures (s == "Single") == (m == Single)
  {
    match m
    case Divorced => "Divorced"
    case Married => "Married"
    case Single => "Single"
  }

  /** The bounds the form's number inputs and sliders enforce. */
  predicate WithinFormBounds(x: EmployeeInput): (b: bool)
    ensures b ==> 0 <= x.age && 0 <= x.monthlyIncome && 0 <= x.jobSatisfaction
                  && 0 <= x.environmentSatisfaction && 0 <= x.yearsAtCompany && 0 <= x.workLifeBalance
  {
    && 18 <= x.age <= 70
    && 1000 <= x.monthlyIncome
    && 1 <= x.jobSatisfaction <= 4
    && 1 <= x.environmentSatisfaction <= 4
    && 0 <= x.yearsAtCompany <= 40
    && 1 <= x.workLifeBalance <= 4
  }

  /** Distinct options show distinct labels, so every role and field names its own column. */
  lemma LabelsDistinct(r1: JobRole, r2: JobRole, e1: EducationField, e2: EducationField)
    ensures JobRoleLabel(r1) == JobRoleLabel(r2) <==> r1 == r2
    ensures EducationFieldLabel(e1) == EducationFieldLabel(e2) <==> e1 == e2
  {
  }
}
