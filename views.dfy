/**
 * The response shapes the handlers build by hand. Each nested summary is its
 * own datatype without a `signups` field, which is how the views break the
 * cycle camper -> signup -> camper (and activity -> signup -> activity).
 *
 * Rows are listed in ascending id order, the order the table queries return.
 */
module Views {
  import opened Models

  datatype CamperSummary = CamperSummary(id: int, name: string, age: int)

  datatype ActivitySummary = ActivitySummary(id: int, name: string, difficulty: int)

  /** A signup inside a camper's detail view, with its activity summarised. */
  datatype SignupEntry = SignupEntry(id: int, time: int, camperId: int, activityId: int, activity: ActivitySummary)

  /** The detail view of one camper. */
  datatype CamperDetail = CamperDetail(id: int, name: string, age: int, signups: seq<SignupEntry>)

  /** The body returned for a new signup: the row plus both summaries. */
  datatype SignupCreated = SignupCreated(id: int, camperId: int, activityId: int, time: int,
                                         activity: ActivitySummary, camper: CamperSummary)

  function SummarizeCamper(id: int, c: Camper): (r: CamperSummary)
  {
    CamperSummary(id, c.name, c.age)
  }

  function SummarizeActivity(id: int, a: Activity): (r: ActivitySummary)
  {
    ActivitySummary(id, a.name, a.difficulty)
  }

  function EntryOf(id: int, s: Signup, a: Activity): (r: SignupEntry)
  {
    SignupEntry(id, s.time, s.camperId, s.activityId, SummarizeActivity(s.activityId, a))
  }

  function SignupCreatedOf(id: int, s: Signup, c: Camper, a: Activity): (r: SignupCreated)
  {
    SignupCreated(id, s.camperId, s.activityId, s.time, SummarizeActivity(s.activityId, a), SummarizeCamper(s.camperId, c))
  }

  /** `m` is the least element of `s`. */
  predicate IsLeast(s: set<int>, m: int)
  {
    m in s && forall x :: x in s ==> m <= x
  }

  /** A set is empty or has a member: a helper for picking an element in `LeastExists`. */
  lemma EmptyOrInhabited(s: set<int>)
    ensures s == {} || exists y :: y in s
  {
    if !exists y :: y in s {
      assert s == {};
    }
  }

  /** Every non-empty finite set of ids has exactly one least element. */
  lemma {:induction false} LeastExists(s: set<int>)
    requires s != {}
    ensures exists m :: IsLeast(s, m)
    ensures forall a, b :: IsLeast(s, a) && IsLeast(s, b) ==> a == b
  {
    EmptyOrInhabited(s);
    var y :| y in s;
    var rest := s - {y};
    if rest == {} {
      assert forall x :: x in s ==> x == y by {
        forall x | x in s ensures x == y { assert x == y || x in rest; }
      }
      assert IsLeast(s, y);
    } else {
      LeastExists(rest);
      var m :| IsLeast(rest, m);
      var least := if y < m then y else m;
      assert forall x :: x in s ==> x == y || x in rest;
      assert IsLeast(s, least);
    }
  }

  /** Strictly ascending, hence free of repeats. */
  predicate Increasing(r: seq<int>)
  {
    forall i, j :: 0 <= i < j < |r| ==> r[i] < r[j]
  }

  lemma ConsIncreasing(m: int, rest: seq<int>)
    requires Increasing(rest)
    requires forall x :: x in rest ==> m < x
    ensures Increasing([m] + rest)
  {
    var r := [m] + rest;
    forall i, j | 0 <= i < j < |r| ensures r[i] < r[j] {
      assert r[j] == rest[j - 1] && rest[j - 1] in rest;
      if i > 0 { assert r[i] == rest[i - 1]; }
    }
  }

  /** The ids of `s`, each once, in ascending order. */
  function Ascending(s: set<int>): (r: seq<int>)
    ensures forall i :: 0 <= i < |r| ==> r[i] in s
    ensures forall x :: x in s ==> x in r
    ensures Increasing(r)
    decreases s
  {
    if s == {} then []
    else
      LeastExists(s);
      var m :| IsLeast(s, m);
      var rest := Ascending(s - {m});
      ConsIncreasing(m, rest);
      [m] + rest
  }

  /** One summary per id of `ids`, in the same order. */
  function CamperSummaries(ids: seq<int>, campers: map<int, Camper>): (r: seq<CamperSummary>)
    requires forall i :: 0 <= i < |ids| ==> ids[i] in campers
    ensures |r| == |ids|
    ensures forall i :: 0 <= i < |r| ==> r[i] == SummarizeCamper(ids[i], campers[ids[i]])
  {
    if ids == [] then [] else [SummarizeCamper(ids[0], campers[ids[0]])] + CamperSummaries(ids[1..], campers)
  }

  /** The body of the camper listing: one summary per stored camper, by ascending id. */
  function CamperList(campers: map<int, Camper>): (r: seq<CamperSummary>)
    ensures forall i :: 0 <= i < |r| ==> r[i].id in campers && r[i] == SummarizeCamper(r[i].id, campers[r[i].id])
    ensures forall i, j :: 0 <= i < j < |r| ==> r[i].id < r[j].id
  {
    CamperSummaries(Ascending(campers.Keys), campers)
  }

  /** No stored camper is missing from the listing. */
  lemma CamperListComplete(campers: map<int, Camper>, k: int)
    requires k in campers
    ensures exists i :: 0 <= i < |CamperList(campers)| && CamperList(campers)[i].id == k
  {
    var ids := Ascending(campers.Keys);
    assert k in ids;
    var i :| 0 <= i < |ids| && ids[i] == k;
    assert CamperList(campers)[i].id == k;
  }

  /** One summary per id of `ids`, in the same order. */
  function ActivitySummaries(ids: seq<int>, activities: map<int, Activity>): (r: seq<ActivitySummary>)
    requires forall i :: 0 <= i < |ids| ==> ids[i] in activities
    ensures |r| == |ids|
    ensures forall i :: 0 <= i < |r| ==> r[i] == SummarizeActivity(ids[i], activities[ids[i]])
  {
    if ids == [] then [] else [SummarizeActivity(ids[0], activities[ids[0]])] + ActivitySummaries(ids[1..], activities)
  }

  /** The body of the activity listing: one summary per stored activity, by ascending id. */
  function ActivityList(activities: map<int, Activity>): (r: seq<ActivitySummary>)
    ensures forall i :: 0 <= i < |r| ==> r[i].id in activities && r[i] == SummarizeActivity(r[i].id, activities[r[i].id])
    ensures forall i, j :: 0 <= i < j < |r| ==> r[i].id < r[j].id
  {
    ActivitySummaries(Ascending(activities.Keys), activities)
  }

  /** No stored activity is missing from the listing. */
  lemma ActivityListComplete(activities: map<int, Activity>, k: int)
    requires k in activities
    ensures exists i :: 0 <= i < |ActivityList(activities)| && ActivityList(activities)[i].id == k
  {
    var ids := Ascending(activities.Keys);
    assert k in ids;
    var i :| 0 <= i < |ids| && ids[i] == k;
    assert ActivityList(activities)[i].id == k;
  }

  /** The ids of the signups that reference camper `id`. */
  function SignupsOf(signups: map<int, Signup>, id: int): (ks: set<int>)
    ensures forall k :: k in ks <==> k in signups && signups[k].camperId == id
  {
    set k | k in signups && signups[k].camperId == id
  }

  /** One detail entry per signup id of `ids`, in the same order. */
  function Entries(ids: seq<int>, activities: map<int, Activity>, signups: map<int, Signup>): (r: seq<SignupEntry>)
    requires forall i :: 0 <= i < |ids| ==> ids[i] in signups && signups[ids[i]].activityId in activities
    ensures |r| == |ids|
    ensures forall i :: 0 <= i < |r| ==> r[i] == EntryOf(ids[i], signups[ids[i]], activities[signups[ids[i]].activityId])
  {
    if ids == [] then []
    else [EntryOf(ids[0], signups[ids[0]], activities[signups[ids[0]].activityId])] + Entries(ids[1..], activities, signups)
  }

  /**
   * The detail view of camper `id`: its columns and, by ascending id, one entry
   * per signup that references it, each carrying a summary of its activity.
   */
  function CamperDetailOf(id: int, c: Camper, activities: map<int, Activity>, signups: map<int, Signup>): (d: CamperDetail)
    requires forall k :: k in signups && signups[k].camperId == id ==> signups[k].activityId in activities
    ensures d.id == id && d.name == c.name && d.age == c.age
    ensures forall i :: 0 <= i < |d.signups| ==>
      d.signups[i].id in signups && signups[d.signups[i].id].camperId == id &&
      d.signups[i] == EntryOf(d.signups[i].id, signups[d.signups[i].id], activities[signups[d.signups[i].id].activityId])
    ensures forall i, j :: 0 <= i < j < |d.signups| ==> d.signups[i].id < d.signups[j].id
  {
    CamperDetail(id, c.name, c.age, Entries(Ascending(SignupsOf(signups, id)), activities, signups))
  }

  /** No signup of the camper is missing from its detail view. */
  lemma CamperDetailComplete(id: int, c: Camper, activities: map<int, Activity>, signups: map<int, Signup>, k: int)
    requires forall k :: k in signups && signups[k].camperId == id ==> signups[k].activityId in activities
    requires k in signups && signups[k].camperId == id
    ensures exists i :: 0 <= i < |CamperDetailOf(id, c, activities, signups).signups| &&
                        CamperDetailOf(id, c, activities, signups).signups[i].id == k
  {
    var ids := Ascending(SignupsOf(signups, id));
    assert k in ids;
    var i :| 0 <= i < |ids| && ids[i] == k;
    assert CamperDetailOf(id, c, activities, signups).signups[i].id == k;
  }
}
