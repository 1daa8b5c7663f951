/**
 * The onboarding form: photo uploads, the step switch, the field and
 * measurement updaters, and the submit guard that stores the photos and
 * the user data and moves on to the analysis page. Storage and navigation
 * are recorded in a ghost log; alerts are returned as results.
 */
module Onboarding {
  import opened Wrappers
  import opened Numbers
  import opened Types

  /** An uploaded photo as the reader left it: a data URL, or `None` when
      the reader's result was null. */
  type PhotoMap = map<PhotoPosition, Option<string>>

  datatype MeasurementName = Chest | Waist | Hips | Arm | Thigh | Calf

  /** `Partial<UserData>` as the form holds it: each field may be unset, and
      a numeric input that does not parse holds NaN. */
  datatype FormData = FormData(
    gender: Option<Gender>,
    age: Option<Number>,
    weight: Option<Number>,
    height: Option<Number>,
    goal: Option<Goal>,
    fitnessLevel: Option<FitnessLevel>,
    weeklyWorkouts: Option<Number>,
    measurements: Option<map<MeasurementName, Number>>)

  const EmptyForm: FormData := FormData(None, None, None, None, None, None, None, None)

  // ---------------------------------------------------------------- photos

  /** `photos[p]` is truthy: the view has an entry that is neither null nor
      the empty string, the only two falsy values a reader leaves. */
  function HasPhoto(photos: PhotoMap, p: PhotoPosition): (r: bool)
    ensures r <==> p in photos && photos[p] !in {None, Some("")}
  {
    p in photos && photos[p].Some? && photos[p].value != ""
  }

  /** The submit guard on photos, view by view: it checks every view, and
      whatever passes it also passes the step guard's count of four keys. */
  function PhotosComplete(photos: PhotoMap): (r: bool)
    ensures r <==> forall p :: HasPhoto(photos, p)
    ensures r ==> |photos.Keys| == 4
  {
    FourViewsAreEvery(photos);
    FourKeysIffAllUploaded(photos);
    assert forall p :: HasPhoto(photos, p) ==> p in photos;
    HasPhoto(photos, Front) && HasPhoto(photos, Back) &&
    HasPhoto(photos, SideRight) && HasPhoto(photos, SideLeft)
  }
  /** The photos a passing submit stores form a full `UserPhotos` record. */
  function CompletePhotos(photos: PhotoMap): (r: Option<UserPhotos>)
    ensures r.Some? <==> forall p :: HasPhoto(photos, p)
    ensures r.Some? ==> forall p :: p in photos && photos[p] == Some(r.value.At(p))
  {
    if PhotosComplete(photos) then
      var u := UserPhotos(photos[Front].value, photos[Back].value, photos[SideRight].value, photos[SideLeft].value);
      ViewsAgree(photos, u);
      Some(u)
    else None
  }

  lemma ViewsAgree(photos: PhotoMap, u: UserPhotos)
    requires PhotosComplete(photos)
    requires u == UserPhotos(photos[Front].value, photos[Back].value, photos[SideRight].value, photos[SideLeft].value)
    ensures forall p :: p in photos && photos[p] == Some(u.At(p))
  {
    forall p ensures p in photos && photos[p] == Some(u.At(p)) {
      match p
      case Front =>
      case Back =>
      case SideRight =>
      case SideLeft =>
    }
  }

  /** Checking the four views by name is checking every view. */
  lemma FourViewsAreEvery(photos: PhotoMap)
    ensures (HasPhoto(photos, Front) && HasPhoto(photos, Back) &&
             HasPhoto(photos, SideRight) && HasPhoto(photos, SideLeft))
            <==> forall p :: HasPhoto(photos, p)
  {
    if HasPhoto(photos, Front) && HasPhoto(photos, Back) &&
       HasPhoto(photos, SideRight) && HasPhoto(photos, SideLeft) {
      forall p ensures HasPhoto(photos, p) {
        match p
        case Front =>
        case Back =>
        case SideRight =>
        case SideLeft =>
      }
    }
  }

  /** `Object.keys(photos).length === 4` holds exactly when every view has
      been uploaded, whatever the reader produced for it. */
  lemma {:induction false} FourKeysIffAllUploaded(photos: PhotoMap)
    ensures |photos.Keys| == 4 <==> forall p :: p in photos
  {
    var all: set<PhotoPosition> := {Front, Back, SideRight, SideLeft};
    assert |all| == 4;
    forall p ensures p in all {
      match p
      case Front =>
      case Back =>
      case SideRight =>
      case SideLeft =>
    }
    assert photos.Keys <= all;
    if forall p :: p in photos {
      assert photos.Keys == all;
    } else {
      var q :| q !in photos;
      assert photos.Keys <= all - {q};
      assert |all - {q}| == 3;
      assert |photos.Keys| <= 3 by {
        SubsetCardinality(photos.Keys, all - {q});
      }
    }
  }

  lemma SubsetCardinality<T>(a: set<T>, b: set<T>)
    requires a <= b
    ensures |a| <= |b|
  {
    assert b == a + (b - a);
  }

  /** The step guard counts keys, the submit guard checks values: a failed
      read passes the first and not the second. */
  lemma StepGuardWeakerThanSubmitGuard()
    ensures var photos: PhotoMap := map[Front := None, Back := None, SideRight := None, SideLeft := None];
            |photos.Keys| == 4 && !PhotosComplete(photos)
  {
  }

  // ---------------------------------------------------------------- user data

  /** The submit guard on data: gender and goal are set, and age, weight
      and height are each refused exactly when unset, zero or NaN. */
  function RequiredPresent(d: FormData): (r: bool)
    ensures r <==> d.gender.Some? && d.goal.Some? &&
                   d.age !in {None, Some(Finite(0.0)), Some(NaN)} &&
                   d.weight !in {None, Some(Finite(0.0)), Some(NaN)} &&
                   d.height !in {None, Some(Finite(0.0)), Some(NaN)}
  {
    d.gender.Some? &&
    d.age.Some? && Truthy(d.age.value) &&
    d.weight.Some? && Truthy(d.weight.value) &&
    d.height.Some? && Truthy(d.height.value) &&
    d.goal.Some?
  }

  /** The measurements record a submit stores: each of the six names the
      form holds a value for, and no other. */
  function MeasurementsOf(m: map<MeasurementName, Number>): (r: Measurements)
    ensures r.chest == (if Chest in m then Some(m[Chest]) else None)
    ensures r.waist == (if Waist in m then Some(m[Waist]) else None)
    ensures r.hips == (if Hips in m then Some(m[Hips]) else None)
    ensures r.arm == (if Arm in m then Some(m[Arm]) else None)
    ensures r.thigh == (if Thigh in m then Some(m[Thigh]) else None)
    ensures r.calf == (if Calf in m then Some(m[Calf]) else None)
  {
    var get := (n: MeasurementName) => if n in m then Some(m[n]) else None;
    Measurements(get(Chest), get(Waist), get(Hips), get(Arm), get(Thigh), get(Calf))
  }

  /** The user data a passing submit stores is a full `UserData` record
      with the entered mandatory values. */
  function CompleteUserData(d: FormData): (r: Option<UserData>)
    ensures r.Some? <==> RequiredPresent(d)
    ensures r.Some? ==> Some(r.value.gender) == d.gender && Some(r.value.goal) == d.goal
    ensures r.Some? ==> d.age == Some(r.value.age) && Truthy(r.value.age)
    ensures r.Some? ==> d.weight == Some(r.value.weight) && Truthy(r.value.weight)
    ensures r.Some? ==> d.height == Some(r.value.height) && Truthy(r.value.height)
    ensures r.Some? ==> r.value.fitnessLevel == d.fitnessLevel && r.value.weeklyWorkouts == d.weeklyWorkouts
    ensures r.Some? ==> (r.value.measurements.Some? <==> d.measurements.Some?)
    ensures r.Some? && d.measurements.Some? ==> r.value.measurements == Some(MeasurementsOf(d.measurements.value))
  {
    if RequiredPresent(d) then
      Some(UserData(d.gender.value, d.age.value, d.weight.value, d.height.value,
                    d.goal.value, d.fitnessLevel, d.weeklyWorkouts,
                    if d.measurements.Some? then Some(MeasurementsOf(d.measurements.value)) else None))
    else None
  }

  /** Truthiness is all the guard asks: a negative age or weight passes it. */
  lemma GuardAdmitsNegativeValues(d: FormData)
    requires RequiredPresent(d)
    ensures RequiredPresent(d.(age := Some(Finite(-1.0)), weight := Some(Finite(-70.0))))
    ensures !RequiredPresent(d.(age := Some(Finite(0.0))))
    ensures !RequiredPresent(d.(weight := Some(NaN)))
    ensures !RequiredPresent(d.(height := None))
  {
  }

  /** One change to a single profile field, as each input's handler makes it. */
  datatype FieldUpdate =
    | SetGender(gender: Gender)
    | SetAge(age: Number)
    | SetWeight(weight: Number)
    | SetHeight(height: Number)
    | SetGoal(goal: Goal)
    | SetFitnessLevel(level: FitnessLevel)
    | SetWeeklyWorkouts(workouts: Number)

  /** `{ ...prev, field: value }`: the named field is replaced, nothing else moves. */
  function Updated(d: FormData, u: FieldUpdate): (r: FormData)
    ensures u.SetGender? ==> r == d.(gender := Some(u.gender))
    ensures u.SetAge? ==> r == d.(age := Some(u.age))
    ensures u.SetWeight? ==> r == d.(weight := Some(u.weight))
    ensures u.SetHeight? ==> r == d.(height := Some(u.height))
    ensures u.SetGoal? ==> r == d.(goal := Some(u.goal))
    ensures u.SetFitnessLevel? ==> r == d.(fitnessLevel := Some(u.level))
    ensures u.SetWeeklyWorkouts? ==> r == d.(weeklyWorkouts := Some(u.workouts))
    ensures r.measurements == d.measurements
  {
    match u
    case SetGender(g) => d.(gender := Some(g))
    case SetAge(n) => d.(age := Some(n))
    case SetWeight(n) => d.(weight := Some(n))
    case SetHeight(n) => d.(height := Some(n))
    case SetGoal(g) => d.(goal := Some(g))
    case SetFitnessLevel(f) => d.(fitnessLevel := Some(f))
    case SetWeeklyWorkouts(n) => d.(weeklyWorkouts := Some(n))
  }

  /** `{ ...prev, measurements: { ...prev.measurements, name: v } }`: the
      other measurements and every other field are kept. */
  function WithMeasurement(d: FormData, name: MeasurementName, v: Number): (r: FormData)
    ensures r.measurements.Some? && name in r.measurements.value && r.measurements.value[name] == v
    ensures d.measurements.Some? ==> r.measurements.value.Keys == d.measurements.value.Keys + {name}
    ensures d.measurements.None? ==> r.measurements.value.Keys == {name}
    ensures forall n :: n != name && d.measurements.Some? && n in d.measurements.value ==>
              r.measurements.value[n] == d.measurements.value[n]
    ensures r.(measurements := d.measurements) == d
  {
    var prev := if d.measurements.Some? then d.measurements.value else map[];
    d.(measurements := Some(prev[name := v]))
  }

  /** Setting a measurement never decides the submit guard. */
  lemma MeasurementsDoNotAffectGuard(d: FormData, name: MeasurementName, v: Number)
    ensures RequiredPresent(WithMeasurement(d, name, v)) == RequiredPresent(d)
  {
  }

  // ---------------------------------------------------------------- submit

  datatype SubmitResult = PhotosMissing | DataMissing | Submitted

  /** The alert each refusal shows; a success shows none. */
  function AlertText(r: SubmitResult): (text: string)
    ensures text == "" <==> r == Submitted
  {
    match r
    case PhotosMissing => "Por favor, envie todas as 4 fotos obrigatórias"
    case DataMissing => "Por favor, preencha todos os dados obrigatórios"
    case Submitted => ""
  }

  /** The outcome of `handleSubmit`: photos are checked first, then data. */
  function SubmitVerdict(photos: PhotoMap, d: FormData): (r: SubmitResult)
    ensures r == PhotosMissing <==> CompletePhotos(photos).None?
    ensures r == DataMissing <==> CompletePhotos(photos).Some? && CompleteUserData(d).None?
    ensures r == Submitted <==> CompletePhotos(photos).Some? && CompleteUserData(d).Some?
    ensures r == Submitted ==> |photos.Keys| == 4
  {
    if !PhotosComplete(photos) then PhotosMissing
    else if !RequiredPresent(d) then DataMissing
    else Submitted
  }

  datatype Stored = StoredPhotos(photos: PhotoMap) | StoredUserData(data: FormData)

  datatype Effect = Store(key: string, value: Stored) | Navigate(path: string)

  const PhotosKey: string := "scanfit_photos"
  const UserDataKey: string := "scanfit_userdata"
  const AnalysisPath: string := "/analysis"

  class OnboardingForm {
    var step: int
    var photos: PhotoMap
    var userData: FormData
    var loading: bool
    /** Every write to storage and every navigation, in order. */
    ghost var log: seq<Effect>

    /** One of the two steps is shown; `loading` is set exactly once the
        page has moved on, and every move on follows the two writes. */
    ghost predicate Valid()
      reads this
    {
      (step == 1 || step == 2) &&
      (loading <==> Navigate(AnalysisPath) in log) &&
      forall i :: 0 <= i < |log| && log[i].Navigate? ==>
        2 <= i && log[i - 2].Store? && log[i - 2].key == PhotosKey &&
        log[i - 1].Store? && log[i - 1].key == UserDataKey
    }

    constructor ()
      ensures Valid()
      ensures step == 1 && photos == map[] && userData == EmptyForm && !loading && log == []
    {
      step := 1;
      photos := map[];
      userData := EmptyForm;
      loading := false;
      log := [];
    }

    /** The reader finished: only that view's entry is set. */
    method SetPhoto(position: PhotoPosition, dataUrl: Option<string>)
      requires Valid()
      modifies this`photos
      ensures Valid()
      ensures photos == old(photos)[position := dataUrl]
      ensures forall p :: p != position ==> (p in photos <==> p in old(photos))
      ensures forall p :: p != position && p in old(photos) ==> photos[p] == old(photos)[p]
    {
      photos := photos[position := dataUrl];
    }

    method SetField(u: FieldUpdate)
      requires Valid()
      modifies this`userData
      ensures Valid()
      ensures userData == Updated(old(userData), u)
    {
      userData := Updated(userData, u);
    }

    method SetMeasurement(name: MeasurementName, v: Number)
      requires Valid()
      modifies this`userData
      ensures Valid()
      ensures userData == WithMeasurement(old(userData), name, v)
    {
      userData := WithMeasurement(userData, name, v);
    }

    /** "Continuar": advance when four views have an entry. */
    method ContinueFromPhotos() returns (advanced: bool)
      requires Valid()
      modifies this`step
      ensures Valid()
      ensures advanced <==> forall p :: p in photos
      ensures step == if advanced then 2 else old(step)
    {
      FourKeysIffAllUploaded(photos);
      advanced := |photos.Keys| == 4;
      if advanced {
        step := 2;
      }
    }

    /** "Voltar". */
    method Back()
      requires Valid()
      modifies this`step
      ensures Valid() && step == 1
    {
      step := 1;
    }

    /** `handleSubmit`: nothing changes unless both guards pass; then
      `loading` is set, photos and data are stored, and the page moves on. */
    method Submit() returns (result: SubmitResult)
      requires Valid()
      modifies this`loading, this`log
      ensures Valid()
      ensures result == SubmitVerdict(photos, userData)
      ensures result != Submitted ==> loading == old(loading) && log == old(log)
      ensures result == Submitted ==>
                loading &&
                log == old(log) + [Store(PhotosKey, StoredPhotos(photos)),
                                   Store(UserDataKey, StoredUserData(userData)),
                                   Navigate(AnalysisPath)]
    {
      if !HasPhoto(photos, Front) || !HasPhoto(photos, PhotoPosition.Back) ||
         !HasPhoto(photos, SideRight) || !HasPhoto(photos, SideLeft) {
        return PhotosMissing;
      }
      if userData.gender.None? || userData.age.None? || !Truthy(userData.age.value) ||
         userData.weight.None? || !Truthy(userData.weight.value) ||
         userData.height.None? || !Truthy(userData.height.value) || userData.goal.None? {
        return DataMissing;
      }
      loading := true;
      log := log + [Store(PhotosKey, StoredPhotos(photos))];
      log := log + [Store(UserDataKey, StoredUserData(userData))];
      log := log + [Navigate(AnalysisPath)];
      result := Submitted;
    }
  }
}
