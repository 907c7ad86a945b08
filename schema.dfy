/**
 * The answers the prediction form collects and the fixed column layout the
 * trained classifier expects (app.py:140-168).
 */
module Schema {

  /** The classifier's 15 input columns, in training order (app.py:140-145). */
  const Features: seq<string> := [
    "gender", "age", "hypertension", "heart_disease", "ever_married", "Residence_type",
    "avg_glucose_level", "bmi",
    "work_type_Never_worked", "work_type_Private", "work_type_Self-employed", "work_type_children",
    "smoking_status_formerly smoked", "smoking_status_never smoked", "smoking_status_smokes"
  ]

  /** Prefixes the encoder glues in front of a categorical answer to name its slot. */
  const WorkTypePrefix: string := "work_type_"
  const SmokingPrefix: string := "smoking_status_"

  /** Choices of the "Gender" select box. */
  datatype Gender = Male | Female | Other

  /** Choices of the "Ever Married" radio. */
  datatype YesNo = Yes | No

  /** Choices of the "Residence Type" radio. */
  datatype Residence = Urban | Rural

  /** Choices of the "Work Type" select box; Label is the string the widget returns. */
  datatype WorkType = Private | SelfEmployed | Children | NeverWorked
  {
    function Label(): string
    {
      match this
      case Private => "Private"
      case SelfEmployed => "Self-employed"
      case Children => "children"
      case NeverWorked => "Never_worked"
    }
  }

  /** Choices of the "Smoking Status" select box; Label is the string the widget returns. */
  datatype SmokingStatus = FormerlySmoked | NeverSmoked | Smokes | Unknown
  {
    function Label(): string
    {
      match this
      case FormerlySmoked => "formerly smoked"
      case NeverSmoked => "never smoked"
      case Smokes => "smokes"
      case Unknown => "Unknown"
    }
  }

  /** Age input: an integer number input bounded to 0..120. */
  type Age = x: int | 0 <= x <= 120

  /** Hypertension / heart disease radios offer the integers 0 and 1. */
  type Flag = x: int | 0 <= x <= 1

  /** Glucose and BMI inputs: real number inputs with minimum 0.0. */
  type Measure = r: real | r >= 0.0

  /** One submission of the form. */
  datatype Answers = Answers(
    gender: Gender,
    age: Age,
    hypertension: Flag,
    heartDisease: Flag,
    everMarried: YesNo,
    residence: Residence,
    avgGlucoseLevel: Measure,
    bmi: Measure,
    workType: WorkType,
    smokingStatus: SmokingStatus)

  /** 1 for true, 0 for false, as a column value. */
  function Indicator(b: bool): (v: real)
    ensures v == 0.0 || v == 1.0
    ensures v == 1.0 <==> b
  {
    if b then 1.0 else 0.0
  }

  /** Single-slot gender code: Male 1, Female 0, anything else 2 (app.py:177). */
  function GenderCode(g: Gender): real
  {
    match g
    case Male => 1.0
    case Female => 0.0
    case Other => 2.0
  }

  /**
   * The vector the classifier is meant to receive, column by column in the
   * order of Features: each column defined by what it means, without the slot
   * names or the membership test the encoder goes through.
   */
  function FeatureVector(a: Answers): seq<real>
  {
    [ GenderCode(a.gender),
      a.age as real,
      a.hypertension as real,
      a.heartDisease as real,
      Indicator(a.everMarried == Yes),
      Indicator(a.residence == Urban),
      a.avgGlucoseLevel,
      a.bmi,
      Indicator(a.workType == NeverWorked),
      Indicator(a.workType == Private),
      Indicator(a.workType == SelfEmployed),
      Indicator(a.workType == Children),
      Indicator(a.smokingStatus == FormerlySmoked),
      Indicator(a.smokingStatus == NeverSmoked),
      Indicator(a.smokingStatus == Smokes) ]
  }

  /** Position of a work type's column inside the four-column work_type group. */
  function WorkTypeOffset(w: WorkType): nat
  {
    match w
    case NeverWorked => 0
    case Private => 1
    case SelfEmployed => 2
    case Children => 3
  }

  /** Position of a smoking status's column inside the three-column group; Unknown has none. */
  function SmokingOffset(s: SmokingStatus): nat
    requires s != Unknown
  {
    match s
    case FormerlySmoked => 0
    case NeverSmoked => 1
    case Smokes => 2
  }

  /** Column group boundaries inside Features. */
  const WorkTypeStart: nat := 8
  const SmokingStart: nat := 12

  /** s is zero everywhere except a single 1 at position k. */
  predicate OneHotAt(s: seq<real>, k: int)
  {
    0 <= k < |s| && forall j :: 0 <= j < |s| ==> s[j] == (if j == k then 1.0 else 0.0)
  }

  predicate AllZero(s: seq<real>)
  {
    forall j :: 0 <= j < |s| ==> s[j] == 0.0
  }

  /** The declared column names are pairwise distinct, so each names one slot. */
  lemma FeaturesDistinct()
    ensures forall i, j :: 0 <= i < j < |Features| ==> Features[i] != Features[j]
  {
  }

  /** Every work type's derived slot name is a declared column, at its group offset. */
  lemma WorkTypeSlotDeclared(w: WorkType)
    ensures WorkTypePrefix + w.Label() == Features[WorkTypeStart + WorkTypeOffset(w)]
  {
  }

  /**
   * A smoking status's derived slot name is a declared column at its group
   * offset, except for Unknown, whose name is not declared at all.
   */
  lemma SmokingSlotDeclared(s: SmokingStatus)
    ensures s != Unknown ==> SmokingPrefix + s.Label() == Features[SmokingStart + SmokingOffset(s)]
    ensures s == Unknown <==> SmokingPrefix + s.Label() !in Features
  {
    if s == Unknown {
      var name := SmokingPrefix + s.Label();
      assert name == "smoking_status_Unknown";
      forall i | 0 <= i < |Features| ensures Features[i] != name {
        assert |name| == 22;
      }
    }
  }

  /**
   * The four work_type columns are one-hot: a 1 in the chosen type's column
   * and 0 in the other three; no work type is a dropped reference category.
   */
  lemma WorkTypeOneHot(a: Answers)
    ensures OneHotAt(FeatureVector(a)[WorkTypeStart..SmokingStart], WorkTypeOffset(a.workType))
  {
  }

  /**
   * The three smoking_status columns are one-hot for formerly smoked, never
   * smoked and smokes, and all zero exactly when the status is Unknown.
   */
  lemma SmokingOneHot(a: Answers)
    ensures a.smokingStatus != Unknown ==>
      OneHotAt(FeatureVector(a)[SmokingStart..], SmokingOffset(a.smokingStatus))
    ensures a.smokingStatus == Unknown <==> AllZero(FeatureVector(a)[SmokingStart..])
  {
    var group := FeatureVector(a)[SmokingStart..];
    if a.smokingStatus != Unknown {
      assert group[SmokingOffset(a.smokingStatus)] == 1.0;
    }
  }

  /** A one-hot group has its 1 in a single place, and is never all zero. */
  lemma OneHotUnique(s: seq<real>, j: int, k: int)
    requires OneHotAt(s, j)
    ensures OneHotAt(s, k) <==> k == j
    ensures !AllZero(s)
  {
    assert s[j] == 1.0;
  }

  /** The gender column holds 1 for Male, 0 for Female, 2 for Other, nothing else. */
  lemma GenderColumn(a: Answers)
    ensures |FeatureVector(a)| == |Features|
    ensures var x := FeatureVector(a)[0];
      (x == 1.0 <==> a.gender == Male) && (x == 0.0 <==> a.gender == Female)
      && (x == 2.0 <==> a.gender == Other)
  {
  }

  /** Age, the two flags, glucose level and BMI reach their columns unchanged. */
  lemma CopiedColumns(a: Answers)
    ensures var v := FeatureVector(a);
      v[1] == a.age as real && v[2] == a.hypertension as real && v[3] == a.heartDisease as real
      && v[6] == a.avgGlucoseLevel && v[7] == a.bmi
  {
  }

  /** ever_married is 1 exactly for Yes, Residence_type 1 exactly for Urban, else 0. */
  lemma BinaryColumns(a: Answers)
    ensures var v := FeatureVector(a);
      (v[4] == 0.0 || v[4] == 1.0) && (v[4] == 1.0 <==> a.everMarried == Yes)
      && (v[5] == 0.0 || v[5] == 1.0) && (v[5] == 1.0 <==> a.residence == Urban)
  {
  }

  /**
   * A worked submission: a married urban male of 50 with hypertension, glucose
   * 105.5, BMI 27.3, in private work, who never smoked.
   */
  lemma ExampleRow()
    ensures FeatureVector(Answers(Male, 50, 1, 0, Yes, Urban, 105.5, 27.3, Private, NeverSmoked))
      == [1.0, 50.0, 1.0, 0.0, 1.0, 1.0, 105.5, 27.3, 0.0, 1.0, 0.0, 0.0, 0.0, 1.0, 0.0]
  {
  }
}
