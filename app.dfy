/**
 * The request handlers of the camp service over an in-memory store of the
 * three tables. Each handler runs its checks in a fixed order (presence and
 * type, then existence of referenced rows, then the field validators) and
 * answers with a status code and a body; a refused request changes nothing.
 *
 * JSON decoding is abstracted: a request field that is absent (or, for the
 * signup time, not an integer) is `None`.
 */
module App {
  import opened Wrappers
  import opened Models
  import opened Views

  /** What a handler passes back: a JSON body, or the empty string of a 204. */
  datatype Body =
    | CamperListBody(campers: seq<CamperSummary>)
    | CamperDetailBody(detail: CamperDetail)
    | CamperBody(camper: CamperSummary)
    | ActivityListBody(activities: seq<ActivitySummary>)
    | ActivityBody(activity: ActivitySummary)
    | SignupBody(signup: SignupCreated)
    | ErrorBody(error: string)
    | ErrorsBody(errors: seq<string>)
    | NoContent

  datatype Response = Response(body: Body, status: int)

  /** The one response every refused create or update gets. */
  const BadRequest := Response(ErrorsBody(["validation errors"]), 400)

  /** Why a request is refused; all kinds leave as the same `BadRequest`. */
  datatype Rejection = MissingField | UnknownReference | Invalid(error: ValueError)

  /**
   * The checks of POST /campers: a falsy name or age is refused before the
   * Camper is built, then construction runs the validators.
   */
  function CamperRequest(name: Option<string>, age: Option<int>): (r: Result<Camper, Rejection>)
    ensures r.Ok? <==> name.Some? && ValidName(name.value) && age.Some? && ValidAge(age.value)
    ensures r.Ok? ==> r.value == Camper(name.value, age.value) && ValidCamper(r.value)
    ensures r.Err? && r.error != MissingField ==> r.error == Invalid(AgeOutOfRange)
  {
    if name.None? || |name.value| == 0 || age.None? || age.value == 0 then Err(MissingField)
    else
      match NewCamper(name.value, age.value)
      case Ok(c) => Ok(c)
      case Err(e) => Err(Invalid(e))
  }

  /**
   * The checks of POST /activities: a falsy name or difficulty (so also a
   * difficulty of 0) is refused; nothing else is validated.
   */
  function ActivityRequest(name: Option<string>, difficulty: Option<int>): (r: Result<Activity, Rejection>)
    ensures r.Ok? <==> name.Some? && name.value != [] && difficulty.Some? && difficulty.value != 0
    ensures r.Ok? ==> r.value == Activity(name.value, difficulty.value)
    ensures r.Err? ==> r.error == MissingField
  {
    if name.None? || |name.value| == 0 || difficulty.None? || difficulty.value == 0 then Err(MissingField)
    else Ok(Activity(name.value, difficulty.value))
  }

  /** Both ids truthy and the time an integer. */
  predicate SignupFieldsPresent(camperId: Option<int>, activityId: Option<int>, time: Option<int>)
  {
    camperId.Some? && camperId.value != 0 && activityId.Some? && activityId.value != 0 && time.Some?
  }

  /**
   * The checks of POST /signups: presence and type, then that both referenced
   * rows exist, and only then the time validator.
   */
  function SignupRequest(campers: map<int, Camper>, activities: map<int, Activity>,
                         camperId: Option<int>, activityId: Option<int>, time: Option<int>): (r: Result<Signup, Rejection>)
    ensures r.Ok? <==> SignupFieldsPresent(camperId, activityId, time) &&
                       camperId.value in campers && activityId.value in activities && ValidTime(time.value)
    ensures r.Ok? ==> r.value == Signup(time.value, camperId.value, activityId.value)
    ensures !SignupFieldsPresent(camperId, activityId, time) ==> r == Err(MissingField)
    ensures (SignupFieldsPresent(camperId, activityId, time) &&
             (camperId.value !in campers || activityId.value !in activities)) ==> r == Err(UnknownReference)
  {
    if camperId.None? || camperId.value == 0 || activityId.None? || activityId.value == 0 || time.None? then
      Err(MissingField)
    else if camperId.value !in campers || activityId.value !in activities then
      Err(UnknownReference)
    else
      match NewSignup(time.value, camperId.value, activityId.value)
      case Ok(s) => Ok(s)
      case Err(e) => Err(Invalid(e))
  }

  /**
   * The attribute writes of PATCH /campers/<id>, one after another; the first
   * write refused by its validator ends the request.
   */
  function ApplyPatch(c: Camper, patch: seq<Assignment>): (r: Result<Camper, ValueError>)
    decreases |patch|
  {
    if patch == [] then Ok(c)
    else
      match Assign(c, patch[0])
      case Err(e) => Err(e)
      case Ok(c') => ApplyPatch(c', patch[1..])
  }

  /** The name written last by `patch`, or `name` when it writes none. */
  function LastName(patch: seq<Assignment>, name: string): (r: string)
  {
    if patch == [] then name
    else if patch[|patch| - 1].SetName? then patch[|patch| - 1].name
    else LastName(patch[..|patch| - 1], name)
  }

  /** The age written last by `patch`, or `age` when it writes none. */
  function LastAge(patch: seq<Assignment>, age: int): (r: int)
  {
    if patch == [] then age
    else if patch[|patch| - 1].SetAge? then patch[|patch| - 1].age
    else LastAge(patch[..|patch| - 1], age)
  }

  lemma {:induction false} LastNameFront(patch: seq<Assignment>, name: string)
    requires patch != []
    ensures LastName(patch, name) == LastName(patch[1..], if patch[0].SetName? then patch[0].name else name)
  {
    if |patch| > 1 {
      var init := patch[..|patch| - 1];
      assert init[1..] == patch[1..][..|patch[1..]| - 1];
      if !patch[|patch| - 1].SetName? {
        LastNameFront(init, name);
      }
    }
  }

  lemma {:induction false} LastAgeFront(patch: seq<Assignment>, age: int)
    requires patch != []
    ensures LastAge(patch, age) == LastAge(patch[1..], if patch[0].SetAge? then patch[0].age else age)
  {
    if |patch| > 1 {
      var init := patch[..|patch| - 1];
      assert init[1..] == patch[1..][..|patch[1..]| - 1];
      if !patch[|patch| - 1].SetAge? {
        LastAgeFront(init, age);
      }
    }
  }

  /**
   * A PATCH succeeds exactly when every write passes its validator, and then
   * each field holds the value written to it last (or its old value).
   */
  lemma {:induction false} ApplyPatchOutcome(c: Camper, patch: seq<Assignment>)
    ensures ApplyPatch(c, patch).Ok? <==> forall i :: 0 <= i < |patch| ==> Admissible(patch[i])
    ensures ApplyPatch(c, patch).Ok? ==>
              ApplyPatch(c, patch).value == Camper(LastName(patch, c.name), LastAge(patch, c.age))
    decreases |patch|
  {
    if patch != [] {
      LastNameFront(patch, c.name);
      LastAgeFront(patch, c.age);
      var r := Assign(c, patch[0]);
      if r.Ok? {
        ApplyPatchOutcome(r.value, patch[1..]);
        assert forall i :: 1 <= i < |patch| ==> patch[i] == patch[1..][i - 1];
      }
    }
  }

  /** A successful PATCH of a valid camper leaves a valid camper. */
  lemma {:induction false} ApplyPatchKeepsValid(c: Camper, patch: seq<Assignment>)
    requires ValidCamper(c)
    ensures ApplyPatch(c, patch).Ok? ==> ValidCamper(ApplyPatch(c, patch).value)
    decreases |patch|
  {
    if patch != [] {
      var r := Assign(c, patch[0]);
      if r.Ok? {
        ApplyPatchKeepsValid(r.value, patch[1..]);
      }
    }
  }

  /**
   * The store: the three tables keyed by id, and for each table the id the
   * next inserted row receives.
   */
  class CampStore {
    var campers: map<int, Camper>
    var activities: map<int, Activity>
    var signups: map<int, Signup>
    var nextCamperId: int
    var nextActivityId: int
    var nextSignupId: int

    /** Ids are positive and below the next one handed out; every stored field passed its validator; every foreign key resolves. */
    ghost predicate Valid()
      reads this
    {
      && 1 <= nextCamperId && 1 <= nextActivityId && 1 <= nextSignupId
      && (forall k :: k in campers ==> 1 <= k < nextCamperId && ValidCamper(campers[k]))
      && (forall k :: k in activities ==> 1 <= k < nextActivityId)
      && (forall k :: k in signups ==> 1 <= k < nextSignupId && ValidTime(signups[k].time))
      && ReferencesResolve(campers, activities, signups)
    }

    constructor ()
      ensures Valid()
      ensures campers == map[] && activities == map[] && signups == map[]
      ensures nextCamperId == 1 && nextActivityId == 1 && nextSignupId == 1
    {
      campers, activities, signups := map[], map[], map[];
      nextCamperId, nextActivityId, nextSignupId := 1, 1, 1;
    }

    /** GET /campers */
    function GetCampers(): (resp: Response)
      reads this
      ensures resp.status == 200 || resp.status == 404
      ensures resp.status == 404 <==> campers == map[]
      ensures resp.status == 404 ==> resp.body == ErrorBody("Camper not found")
      ensures resp.status == 200 ==> resp.body == CamperListBody(CamperList(campers))
    {
      if campers == map[] then Response(ErrorBody("Camper not found"), 404)
      else Response(CamperListBody(CamperList(campers)), 200)
    }

    /** GET /campers/<id> */
    function GetCamper(id: int): (resp: Response)
      reads this
      requires Valid()
      ensures resp.status == 200 || resp.status == 404
      ensures resp.status == 404 <==> id !in campers
      ensures resp.status == 404 ==> resp.body == ErrorBody("Camper not found")
      ensures resp.status == 200 ==> resp.body == CamperDetailBody(CamperDetailOf(id, campers[id], activities, signups))
    {
      if id !in campers then Response(ErrorBody("Camper not found"), 404)
      else Response(CamperDetailBody(CamperDetailOf(id, campers[id], activities, signups)), 200)
    }

    /** GET /activities */
    function GetActivities(): (resp: Response)
      reads this
      ensures resp.status == 200 || resp.status == 404
      ensures resp.status == 404 <==> activities == map[]
      ensures resp.status == 404 ==> resp.body == ErrorBody("Activities not found")
      ensures resp.status == 200 ==> resp.body == ActivityListBody(ActivityList(activities))
    {
      if activities == map[] then Response(ErrorBody("Activities not found"), 404)
      else Response(ActivityListBody(ActivityList(activities)), 200)
    }

    /** GET /activities/<id>: the one summary, wrapped in a list. */
    function GetActivity(id: int): (resp: Response)
      reads this
      ensures resp.status == 200 || resp.status == 404
      ensures resp.status == 404 <==> id !in activities
      ensures resp.status == 404 ==> resp.body == ErrorBody("Activity not found")
      ensures resp.status == 200 ==>
        resp.body.ActivityListBody? && |resp.body.activities| == 1 &&
        resp.body.activities[0] == SummarizeActivity(id, activities[id])
    {
      if id !in activities then Response(ErrorBody("Activity not found"), 404)
      else Response(ActivityListBody([SummarizeActivity(id, activities[id])]), 200)
    }

    /** POST /campers */
    method CreateCamper(name: Option<string>, age: Option<int>) returns (resp: Response)
      requires Valid()
      modifies this
      ensures Valid()
      ensures CamperRequest(name, age).Err? ==> resp == BadRequest && unchanged(this)
      ensures CamperRequest(name, age).Ok? ==>
        var c := CamperRequest(name, age).value;
        var id := old(nextCamperId);
        && id !in old(campers)
        && campers == old(campers)[id := c]
        && resp == Response(CamperBody(SummarizeCamper(id, c)), 201)
        && activities == old(activities) && signups == old(signups)
        && nextCamperId == id + 1
        && nextActivityId == old(nextActivityId) && nextSignupId == old(nextSignupId)
    {
      match CamperRequest(name, age) {
        case Err(_) =>
          resp := BadRequest;
        case Ok(c) =>
          var id := nextCamperId;
          campers := campers[id := c];
          nextCamperId := id + 1;
          resp := Response(CamperBody(SummarizeCamper(id, c)), 201);
      }
    }

    /**
     * PATCH /campers/<id>: the writes go to a copy of the row, which is stored
     * only when every write has passed its validator.
     */
    method UpdateCamper(id: int, patch: seq<Assignment>) returns (resp: Response)
      requires Valid()
      modifies this
      ensures Valid()
      ensures id !in old(campers) ==> resp == Response(ErrorBody("Camper not found"), 404) && unchanged(this)
      ensures id in old(campers) && patch == [] ==> resp == BadRequest && unchanged(this)
      ensures id in old(campers) && patch != [] && ApplyPatch(old(campers)[id], patch).Err? ==>
        resp == BadRequest && unchanged(this)
      ensures id in old(campers) && patch != [] && ApplyPatch(old(campers)[id], patch).Ok? ==>
        var c := ApplyPatch(old(campers)[id], patch).value;
        && campers == old(campers)[id := c]
        && resp == Response(CamperBody(SummarizeCamper(id, c)), 202)
        && activities == old(activities) && signups == old(signups)
        && nextCamperId == old(nextCamperId) && nextActivityId == old(nextActivityId)
        && nextSignupId == old(nextSignupId)
    {
      if id !in campers {
        return Response(ErrorBody("Camper not found"), 404);
      }
      if patch == [] {
        return BadRequest;
      }
      var stored := campers[id];
      var record := stored;
      var i := 0;
      while i < |patch|
        invariant 0 <= i <= |patch|
        invariant ApplyPatch(record, patch[i..]) == ApplyPatch(stored, patch)
        invariant ValidCamper(record)
      {
        assert patch[i..][0] == patch[i] && patch[i..][1..] == patch[i + 1..];
        match Assign(record, patch[i]) {
          case Err(_) =>
            return BadRequest;
          case Ok(updated) =>
            record := updated;
        }
        i := i + 1;
      }
      campers := campers[id := record];
      resp := Response(CamperBody(SummarizeCamper(id, record)), 202);
    }

    /** POST /activities */
    method CreateActivity(name: Option<string>, difficulty: Option<int>) returns (resp: Response)
      requires Valid()
      modifies this
      ensures Valid()
      ensures ActivityRequest(name, difficulty).Err? ==> resp == BadRequest && unchanged(this)
      ensures ActivityRequest(name, difficulty).Ok? ==>
        var a := ActivityRequest(name, difficulty).value;
        var id := old(nextActivityId);
        && id !in old(activities)
        && activities == old(activities)[id := a]
        && resp == Response(ActivityBody(SummarizeActivity(id, a)), 201)
        && campers == old(campers) && signups == old(signups)
        && nextActivityId == id + 1
        && nextCamperId == old(nextCamperId) && nextSignupId == old(nextSignupId)
    {
      match ActivityRequest(name, difficulty) {
        case Err(_) =>
          resp := BadRequest;
        case Ok(a) =>
          var id := nextActivityId;
          activities := activities[id := a];
          nextActivityId := id + 1;
          resp := Response(ActivityBody(SummarizeActivity(id, a)), 201);
      }
    }

    /** DELETE /activities/<id>: the activity goes, and its signups with it. */
    method DeleteActivity(id: int) returns (resp: Response)
      requires Valid()
      modifies this
      ensures Valid()
      ensures id !in old(activities) ==> resp == Response(ErrorBody("Activity not found"), 404) && unchanged(this)
      ensures id in old(activities) ==>
        && resp == Response(NoContent, 204)
        && activities == old(activities) - {id}
        && signups == CascadeActivity(old(signups), id)
        && campers == old(campers)
        && nextCamperId == old(nextCamperId) && nextActivityId == old(nextActivityId)
        && nextSignupId == old(nextSignupId)
    {
      if id !in activities {
        return Response(ErrorBody("Activity not found"), 404);
      }
      DeleteActivityKeepsReferences(campers, activities, signups, id);
      activities := activities - {id};
      signups := CascadeActivity(signups, id);
      resp := Response(NoContent, 204);
    }

    /**
     * Deleting a camper row, as the camper's signup relationship configures
     * it: the camper goes, and its signups with it. No route deletes campers.
     */
    method DeleteCamper(id: int) returns (found: bool)
      requires Valid()
      modifies this
      ensures Valid()
      ensures found <==> id in old(campers)
      ensures !found ==> unchanged(this)
      ensures found ==>
        && campers == old(campers) - {id}
        && signups == CascadeCamper(old(signups), id)
        && activities == old(activities)
        && nextCamperId == old(nextCamperId) && nextActivityId == old(nextActivityId)
        && nextSignupId == old(nextSignupId)
    {
      found := id in campers;
      if found {
        DeleteCamperKeepsReferences(campers, activities, signups, id);
        campers := campers - {id};
        signups := CascadeCamper(signups, id);
      }
    }

    /** POST /signups */
    method CreateSignup(camperId: Option<int>, activityId: Option<int>, time: Option<int>) returns (resp: Response)
      requires Valid()
      modifies this
      ensures Valid()
      ensures SignupRequest(old(campers), old(activities), camperId, activityId, time).Err? ==>
        resp == BadRequest && unchanged(this)
      ensures SignupRequest(old(campers), old(activities), camperId, activityId, time).Ok? ==>
        var s := SignupRequest(old(campers), old(activities), camperId, activityId, time).value;
        var id := old(nextSignupId);
        && id !in old(signups)
        && signups == old(signups)[id := s]
        && resp == Response(SignupBody(SignupCreatedOf(id, s, old(campers)[s.camperId], old(activities)[s.activityId])), 201)
        && campers == old(campers) && activities == old(activities)
        && nextSignupId == id + 1
        && nextCamperId == old(nextCamperId) && nextActivityId == old(nextActivityId)
    {
      match SignupRequest(campers, activities, camperId, activityId, time) {
        case Err(_) =>
          resp := BadRequest;
        case Ok(s) =>
          var id := nextSignupId;
          signups := signups[id := s];
          nextSignupId := id + 1;
          resp := Response(SignupBody(SignupCreatedOf(id, s, campers[s.camperId], activities[s.activityId])), 201);
      }
    }
  }
}
