/**
 * The data model of the application: the string-literal unions `Gender`,
 * `Goal` and `FitnessLevel`, the four-view photo record, the user profile
 * record and the analysis record returned to the caller.
 */
module Types {
  import opened Wrappers
  import opened Numbers

  datatype Gender = Male | Female

  datatype Goal = MuscleGain | FatLoss | BodyRecomp | Performance

  datatype FitnessLevel = Beginner | Intermediate | Advanced

  /** The wire spelling of each gender. */
  function GenderCode(g: Gender): string {
    match g
    case Male => "male"
    case Female => "female"
  }

  /** Reading a gender from its wire spelling; anything else is not a `Gender`. */
  function GenderFromCode(s: string): (r: Option<Gender>)
    ensures r.Some? <==> s in {"male", "female"}
    ensures r.Some? ==> GenderCode(r.value) == s
    ensures forall g :: GenderCode(g) == s ==> r == Some(g)
  {
    if s == "male" then Some(Male)
    else if s == "female" then Some(Female)
    else None
  }

  /** The wire spelling of each goal code. */
  function GoalCode(g: Goal): string {
    match g
    case MuscleGain => "muscle_gain"
    case FatLoss => "fat_loss"
    case BodyRecomp => "body_recomp"
    case Performance => "performance"
  }

  /** The four goal codes, exactly. */
  const GoalCodes: set<string> := {"muscle_gain", "fat_loss", "body_recomp", "performance"}

  function GoalFromCode(s: string): (r: Option<Goal>)
    ensures r.Some? <==> s in GoalCodes
    ensures r.Some? ==> GoalCode(r.value) == s
    ensures forall g :: GoalCode(g) == s ==> r == Some(g)
  {
    if s == "muscle_gain" then Some(MuscleGain)
    else if s == "fat_loss" then Some(FatLoss)
    else if s == "body_recomp" then Some(BodyRecomp)
    else if s == "performance" then Some(Performance)
    else None
  }

  /** Distinct goals have distinct codes, and the codes are exactly `GoalCodes`. */
  lemma GoalCodesExact()
    ensures forall g :: GoalCode(g) in GoalCodes
    ensures forall s :: s in GoalCodes ==> exists g :: GoalCode(g) == s
    ensures forall g1, g2 :: GoalCode(g1) == GoalCode(g2) ==> g1 == g2
    ensures |GoalCodes| == 4
  {
    forall s | s in GoalCodes ensures exists g :: GoalCode(g) == s {
      assert GoalCode(GoalFromCode(s).value) == s;
    }
  }

  function FitnessLevelCode(f: FitnessLevel): string {
    match f
    case Beginner => "beginner"
    case Intermediate => "intermediate"
    case Advanced => "advanced"
  }

  function FitnessLevelFromCode(s: string): (r: Option<FitnessLevel>)
    ensures r.Some? <==> s in {"beginner", "intermediate", "advanced"}
    ensures r.Some? ==> FitnessLevelCode(r.value) == s
    ensures forall f :: FitnessLevelCode(f) == s ==> r == Some(f)
  {
    if s == "beginner" then Some(Beginner)
    else if s == "intermediate" then Some(Intermediate)
    else if s == "advanced" then Some(Advanced)
    else None
  }

  /** The four views a submission needs, in the order they are sent. */
  datatype PhotoPosition = Front | Back | SideRight | SideLeft

  const AllPositions: seq<PhotoPosition> := [Front, Back, SideRight, SideLeft]

  /** Every view is present: an image reference (a data URL) for each. */
  datatype UserPhotos = UserPhotos(front: string, back: string, sideRight: string, sideLeft: string)
  {
    function At(p: PhotoPosition): string {
      match p
      case Front => front
      case Back => back
      case SideRight => sideRight
      case SideLeft => sideLeft
    }
  }

  /** The send order lists every view exactly once. */
  lemma AllPositionsIsEnumeration()
    ensures |AllPositions| == 4
    ensures forall p :: p in AllPositions
    ensures forall i, j :: 0 <= i < j < |AllPositions| ==> AllPositions[i] != AllPositions[j]
  {
    forall p ensures p in AllPositions {
      match p
      case Front => assert AllPositions[0] == p;
      case Back => assert AllPositions[1] == p;
      case SideRight => assert AllPositions[2] == p;
      case SideLeft => assert AllPositions[3] == p;
    }
  }

  /** Optional body measurements, in cm; each a JavaScript number. */
  datatype Measurements = Measurements(
    chest: Option<Number>,
    waist: Option<Number>,
    hips: Option<Number>,
    arm: Option<Number>,
    thigh: Option<Number>,
    calf: Option<Number>)

  /** The profile: gender, age, weight (kg), height (cm) and goal are
      mandatory; the rest may be absent. Numbers are JavaScript numbers. */
  datatype UserData = UserData(
    gender: Gender,
    age: Number,
    weight: Number,
    height: Number,
    goal: Goal,
    fitnessLevel: Option<FitnessLevel>,
    weeklyWorkouts: Option<Number>,
    measurements: Option<Measurements>)

  /** The analysis returned to the caller; six fields, `recommendations` a list of strings. */
  datatype BodyAnalysis = BodyAnalysis(
    bodyFatPercentage: real,
    bmi: real,
    bodyType: string,
    muscleMassEstimate: string,
    recommendations: seq<string>,
    detailedAnalysis: string)

  /** The JSON key of each `BodyAnalysis` field. */
  const AnalysisKeys: set<string> :=
    {"bodyFatPercentage", "bmi", "bodyType", "muscleMassEstimate", "recommendations", "detailedAnalysis"}
}
