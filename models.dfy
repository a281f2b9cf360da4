/**
 * The three tables of the camp service, the validators that guard their
 * fields on every assignment, the foreign keys between them and the cascade
 * the relationships declare.
 *
 * A row is stored under its id (the key of the table map), so the records
 * below carry only the remaining columns.
 */
module Models {
  import opened Wrappers

  /** A row of `campers`. */
  datatype Camper = Camper(name: string, age: int)

  /** A row of `activities`. Neither column has a validator. */
  datatype Activity = Activity(name: string, difficulty: int)

  /** A row of `signups`: an hour of the day and two foreign keys. */
  datatype Signup = Signup(time: int, camperId: int, activityId: int)

  /** The ValueError each validator raises, one per message. */
  datatype ValueError = AgeOutOfRange | MissingName | TimeOutOfRange

  /** The field invariants the validators enforce. */
  predicate ValidAge(age: int) { 8 <= age <= 18 }

  predicate ValidName(name: string) { name != [] }

  predicate ValidTime(time: int) { 0 <= time <= 23 }

  predicate ValidCamper(c: Camper) { ValidName(c.name) && ValidAge(c.age) }

  /** `Camper.validate_age`: the age passes through unchanged or is refused. */
  function ValidateAge(age: int): (r: Result<int, ValueError>)
    ensures r.Ok? <==> ValidAge(age)
    ensures r.Ok? ==> r.value == age
    ensures r.Err? ==> r.error == AgeOutOfRange
  {
    if !(8 <= age <= 18) then Err(AgeOutOfRange) else Ok(age)
  }

  /** `Camper.validate_name`: a falsy (empty) name is refused. */
  function ValidateName(name: string): (r: Result<string, ValueError>)
    ensures r.Ok? <==> ValidName(name)
    ensures r.Ok? ==> r.value == name
    ensures r.Err? ==> r.error == MissingName
  {
    if |name| == 0 then Err(MissingName) else Ok(name)
  }

  /** `Signup.validates_time`: the hour passes through unchanged or is refused. */
  function ValidateTime(time: int): (r: Result<int, ValueError>)
    ensures r.Ok? <==> ValidTime(time)
    ensures r.Ok? ==> r.value == time
    ensures r.Err? ==> r.error == TimeOutOfRange
  {
    if !(0 <= time <= 23) then Err(TimeOutOfRange) else Ok(time)
  }

  /**
   * `Camper(name=..., age=...)`: the keyword arguments are assigned in order,
   * each through its validator, so a bad name is reported before a bad age.
   */
  function NewCamper(name: string, age: int): (r: Result<Camper, ValueError>)
    ensures r.Ok? <==> ValidName(name) && ValidAge(age)
    ensures r.Ok? ==> r.value == Camper(name, age) && ValidCamper(r.value)
    ensures r.Err? ==> r.error == if ValidName(name) then AgeOutOfRange else MissingName
  {
    match ValidateName(name)
    case Err(e) => Err(e)
    case Ok(n) =>
      match ValidateAge(age)
      case Err(e) => Err(e)
      case Ok(a) => Ok(Camper(n, a))
  }

  /** `Signup(camper_id=..., activity_id=..., time=...)`: only the time is validated. */
  function NewSignup(time: int, camperId: int, activityId: int): (r: Result<Signup, ValueError>)
    ensures r.Ok? <==> ValidTime(time)
    ensures r.Ok? ==> r.value == Signup(time, camperId, activityId)
    ensures r.Err? ==> r.error == TimeOutOfRange
  {
    match ValidateTime(time)
    case Err(e) => Err(e)
    case Ok(t) => Ok(Signup(t, camperId, activityId))
  }

  /** One attribute write on a stored Camper. */
  datatype Assignment = SetName(name: string) | SetAge(age: int)

  /** Whether an assignment would get past its validator. */
  predicate Admissible(a: Assignment)
  {
    match a
    case SetName(n) => ValidName(n)
    case SetAge(x) => ValidAge(x)
  }

  /** `setattr(record, attr, value)` on a Camper: the attribute's validator runs first. */
  function Assign(c: Camper, a: Assignment): (r: Result<Camper, ValueError>)
    ensures r.Ok? <==> Admissible(a)
    ensures r.Ok? && a.SetName? ==> r.value == c.(name := a.name)
    ensures r.Ok? && a.SetAge? ==> r.value == c.(age := a.age)
    ensures ValidCamper(c) && r.Ok? ==> ValidCamper(r.value)
  {
    match a
    case SetName(n) => (match ValidateName(n) case Ok(v) => Ok(c.(name := v)) case Err(e) => Err(e))
    case SetAge(x) => (match ValidateAge(x) case Ok(v) => Ok(c.(age := v)) case Err(e) => Err(e))
  }

  /** The foreign keys `signups.camper_id` and `signups.activity_id` name stored rows. */
  predicate ReferencesResolve(campers: map<int, Camper>, activities: map<int, Activity>, signups: map<int, Signup>)
  {
    forall k :: k in signups ==> signups[k].camperId in campers && signups[k].activityId in activities
  }

  /** The signups that `cascade='all, delete-orphan'` removes with activity `id`. */
  function CascadeActivity(signups: map<int, Signup>, id: int): (r: map<int, Signup>)
    ensures r.Keys <= signups.Keys
    ensures forall k :: k in r ==> r[k] == signups[k] && r[k].activityId != id
    ensures forall k :: k in signups && signups[k].activityId != id ==> k in r
  {
    map k | k in signups && signups[k].activityId != id :: signups[k]
  }

  /** The signups that `cascade='all, delete-orphan'` removes with camper `id`. */
  function CascadeCamper(signups: map<int, Signup>, id: int): (r: map<int, Signup>)
    ensures r.Keys <= signups.Keys
    ensures forall k :: k in r ==> r[k] == signups[k] && r[k].camperId != id
    ensures forall k :: k in signups && signups[k].camperId != id ==> k in r
  {
    map k | k in signups && signups[k].camperId != id :: signups[k]
  }

  /** Deleting an activity together with its signups leaves no dangling foreign key. */
  lemma DeleteActivityKeepsReferences(campers: map<int, Camper>, activities: map<int, Activity>,
                                      signups: map<int, Signup>, id: int)
    requires ReferencesResolve(campers, activities, signups)
    ensures ReferencesResolve(campers, activities - {id}, CascadeActivity(signups, id))
  {
  }

  /** Deleting a camper together with its signups leaves no dangling foreign key. */
  lemma DeleteCamperKeepsReferences(campers: map<int, Camper>, activities: map<int, Activity>,
                                    signups: map<int, Signup>, id: int)
    requires ReferencesResolve(campers, activities, signups)
    ensures ReferencesResolve(campers - {id}, activities, CascadeCamper(signups, id))
  {
  }
}
