# Camp scheduling service: a Dafny model of its store and handlers

The service keeps three tables: campers, activities and signups. A signup
books one camper onto one activity at an hour of the day. The service
exposes create, read, update and delete handlers over them. This project
models the part of it that holds rules:

- the field validators: camper age in 8..18, camper name non-empty, signup
  time in 0..23;
- the foreign keys from a signup to its camper and activity;
- the cascade that deletes a parent's signups with the parent;
- the nine request handlers, with their checks in source order and their
  status codes;
- the hand-built response shapes.

Files:

- `wrappers.dfy`: `Option` and `Result`.
- `models.dfy` (module `Models`): the three row types, the validators as
  functions that return the value or a `ValueError`, attribute writes that
  run the validator first (`Assign`), the foreign-key predicate
  `ReferencesResolve`, and the two cascades.
- `views.dfy` (module `Views`): one datatype per response shape, and the
  projections that build the listings and the camper detail view. The
  nested camper and activity summaries are datatypes without a `signups`
  field. This is how the model breaks the camper → signup → camper cycle
  that the serialization rules of server/models.py break.
- `app.dfy` (module `App`): the request checks of the create handlers as
  pure functions, the PATCH body as a sequence of attribute writes
  (`ApplyPatch`), and the class `CampStore`. The class holds the three
  tables as `map`s from id to row and one id counter per table. `Valid()`
  is its invariant: ids are positive and below the table's counter, every
  stored camper and signup passed its validators, and every signup's
  foreign keys name stored rows. Each mutating handler is a method that
  keeps `Valid()`. Its `ensures` gives the whole new state and the response
  in terms of the old state and the request. A refused request leaves the
  store `unchanged`. The GET handlers are functions that read the store.
- `scenario.dfy` (module `Scenario`): client methods that drive the store
  through its handlers and establish their outcomes from the handlers'
  contracts alone: creation, refused signups, a refused and an accepted
  PATCH, and the cascade on deleting an activity.

A request field that is absent is `None`. For the signup time, `None` also
stands for a value that is not an integer. The "falsy" checks of the source
are written out. A name of `""` and an age, difficulty or id of `0` are
refused like absent fields.

Where the source relies on the database, the model makes a choice:

- Rows come back in ascending id order (`Views.Ascending`).
- A failed PATCH is never committed, so the store is left as it was. The
  source writes the attributes onto the loaded row one by one. It returns
  before `commit`, and the uncommitted session is discarded at the end of
  the request. The model writes to a copy of the row and stores the copy
  only when every write has passed.

## Model

| member | source | states |
|---|---|---|
| Models.ValidateAge | server/models.py:50-54 | accepts exactly the ages with 8 ≤ age ≤ 18, both bounds included, and returns them unchanged; every other age is refused with the age error |
| Models.ValidateName | server/models.py:56-60 | refuses exactly the empty name with the missing-name error; any other name is returned unchanged |
| Models.ValidateTime | server/models.py:83-87 | accepts exactly the hours with 0 ≤ time ≤ 23 and returns them unchanged; every other time is refused with the time error |
| Models.NewCamper | server/models.py:50-60 | building a camper succeeds iff the name and the age both pass their validators; the result has exactly the given fields and is a valid camper; a bad name is reported before a bad age |
| Models.NewSignup | server/models.py:83-87 | building a signup succeeds iff the time is valid; the ids are stored as given, not checked here |
| Models.Assign | server/models.py:50-60 | an attribute write succeeds iff the written value passes that attribute's validator; it changes only that attribute; it keeps a valid camper valid |
| Models.CascadeActivity | server/models.py:28 | after deleting activity `id`, no remaining signup references it; every signup of another activity is kept with its row unchanged; no signup is added |
| Models.CascadeCamper | server/models.py:45 | after deleting camper `id`, no remaining signup references it; every signup of another camper is kept with its row unchanged; no signup is added |
| Models.DeleteActivityKeepsReferences | server/models.py:72-77 | if every signup's foreign keys resolve, they still resolve after the activity and its cascaded signups are removed |
| Models.DeleteCamperKeepsReferences | server/models.py:72-77 | if every signup's foreign keys resolve, they still resolve after the camper and its cascaded signups are removed |
| Views.Ascending | server/app.py:31 | enumerates the ids of a set in strictly ascending order: every element is in the set, every member of the set appears, and there are no repeats |
| Views.LeastExists | server/app.py:31 | every non-empty set of ids has exactly one least element, so the ascending order is well defined |
| Views.CamperList | server/app.py:36-42 | each entry of the camper listing is the id, name and age of a stored camper; ids strictly ascend, so no camper is listed twice |
| Views.CamperListComplete | server/app.py:36-42 | every stored camper appears in the camper listing |
| Views.ActivityList | server/app.py:128-134 | each entry of the activity listing is the id, name and difficulty of a stored activity; ids strictly ascend |
| Views.ActivityListComplete | server/app.py:128-134 | every stored activity appears in the activity listing |
| Views.CamperDetailOf | server/app.py:52-70 | the detail view carries the camper's id, name and age. Each entry is a stored signup of that camper, with its id, time and both foreign keys. The entry holds a summary of the activity it references: id, name and difficulty only. Entry ids strictly ascend |
| Views.CamperDetailComplete | server/app.py:56-69 | every stored signup of the camper appears in its detail view |
| App.CamperRequest | server/app.py:77-88 | POST /campers is accepted iff name is present and non-empty and 8 ≤ age ≤ 18; the accepted camper has exactly the given fields; past the presence check only the age validator can refuse |
| App.ActivityRequest | server/app.py:160-166 | POST /activities is accepted iff name is present and non-empty and difficulty is present and non-zero (a difficulty of 0 is refused); the activity is stored with exactly the given fields, with no further validation |
| App.SignupRequest | server/app.py:194-219 | POST /signups is accepted iff both ids are present and non-zero, the time is an integer, both rows exist and 0 ≤ time ≤ 23. A missing field is refused as such. With all fields present, a missing camper or activity is refused as an unknown reference, whatever the time: existence is checked before the time validator |
| App.ApplyPatchOutcome | server/app.py:106-112 | a PATCH succeeds iff every write passes its validator; then each of name and age holds the value written to it last, or its old value if it was not written |
| App.ApplyPatchKeepsValid | server/app.py:107-108 | a successful PATCH of a valid camper yields a valid camper |
| App.CampStore.GetCampers | server/app.py:28-43 | 404 with "Camper not found" iff there are no campers; otherwise 200 with the camper listing |
| App.CampStore.GetCamper | server/app.py:45-71 | 404 with "Camper not found" iff the id is unknown; otherwise 200 with the camper's detail view |
| App.CampStore.GetActivities | server/app.py:120-136 | 404 with "Activities not found" iff there are no activities; otherwise 200 with the activity listing |
| App.CampStore.GetActivity | server/app.py:138-153 | 404 with "Activity not found" iff the id is unknown; otherwise 200 with a one-element list holding the activity's summary |
| App.CampStore.CreateCamper | server/app.py:73-94 | a refused request answers 400 and changes nothing. Otherwise the camper is stored under a fresh id and the response is 201 with that id, name and age. Nothing else changes. The store invariant is kept |
| App.CampStore.UpdateCamper | server/app.py:96-118 | an unknown id answers 404 and an empty body 400; neither changes anything. A refused write answers 400 and leaves the stored camper as it was. Otherwise only that camper is replaced by the PATCH result, and the response is 202 with its id, name and age. The store invariant is kept |
| App.CampStore.CreateActivity | server/app.py:155-175 | a refused request answers 400 and changes nothing. Otherwise the activity is stored under a fresh id with exactly the given fields, and the response is 201 with its summary. Nothing else changes |
| App.CampStore.DeleteActivity | server/app.py:178-187 | an unknown id answers 404 and changes nothing. Otherwise the response is 204 with an empty body. The activity is removed with exactly its signups. Campers, other activities and other signups are untouched, and the store invariant is kept |
| App.CampStore.DeleteCamper | server/models.py:45 | reports whether the camper existed. If it did, it is removed with exactly its signups; activities and other signups are untouched, and the store invariant is kept. If it did not, nothing changes |
| App.CampStore.CreateSignup | server/app.py:190-236 | a refused request answers 400 and creates nothing. Otherwise exactly one signup is added under a fresh id, with the given time and ids. The response is 201 with the signup, a camper summary (id, name, age) and an activity summary (id, name, difficulty). Neither summary has a `signups` field. Nothing else changes |

## Left out

- Flask, flask_restful and Flask-Migrate wiring, the routes, the database URI and configuration, and starting the server (server/app.py:1-26, 238-239): framework and I/O.
- The SQLAlchemy session, engine, `commit` and the metadata naming convention (server/models.py:1-17). They are replaced by the three maps and the id counters of `CampStore`.
- Id assignment: the model hands out each table's ids from a counter and never reuses one. The storage engine may reuse the highest id of a table after that row is deleted. The model promises only that a new id is fresh.
- JSON encoding and decoding (`jsonify`, `request.get_json`): the request fields arrive already typed, and each response is a datatype value. The generic `SerializerMixin` and its `serialize_rules` strings (server/models.py:31, 48, 80) are library code. The handlers never call it; they build every response by hand. The cycle those rules break is broken in the model by the view datatypes, whose nested summaries have no `signups` field.
- Python's dynamic typing: a name that is not a string, an age that is not a number (which raises `TypeError`, not `ValueError`, and so gives a server error), a `bool` passing as an integer time, and a body that is not a JSON object.
- PATCH writes to attributes other than `name` and `age` (server/app.py:107-110). The source's `setattr` accepts any key, and the model's PATCH body is only a sequence of name and age writes. The unmodelled writes do this to the store:
  - An unknown attribute is set on the loaded object and not stored. A body made only of such keys is answered 202 with no change.
  - `{"id": n}` rewrites the camper's primary key. The camper's signups keep the old `camper_id`: SQLite does not enforce foreign keys, and server/models.py:73 declares no update cascade. The answer is 202, and those signups then name a camper that does not exist. If `n` is already taken, the commit fails and the answer is a server error.
  - `{"signups": []}` empties the camper's collection. The `delete-orphan` cascade (server/models.py:45) then deletes every signup of that camper, and the answer is 202.
- `ReferencesResolve`, and with it the foreign-key part of `CampStore.Valid()`, holds in the model only because the PATCH body is restricted to name and age writes. In the source a PATCH that writes `id` can break it, as described above.
- The `delete-orphan` half of the cascade: in the source, only a PATCH that writes the `signups` attribute triggers it (see above). The modelled handlers never remove a signup from a parent's collection.
- No route deletes a camper. `CampStore.DeleteCamper` models the cascade that the camper's relationship declares.
- The 64-bit bound of SQLite's INTEGER columns. The model's integers are unbounded. In the source, an integer outside the signed 64-bit range (below -2^63 or at least 2^63) makes the database driver raise `OverflowError`. The handlers catch only `ValueError`, so the answer is a server error. The model answers differently in three places:
  - App.ActivityRequest: accepts such a difficulty, and `CreateActivity` answers 201, where the source fails at commit (server/app.py:169).
  - App.SignupRequest: refuses such a camper or activity id as an unknown reference (400), where the source fails in the lookup (server/app.py:203-204).
  - The id-taking handlers (`GetCamper`, `UpdateCamper`, `GetActivity`, `DeleteActivity`) answer 404 for such an id, where the source gives a server error.
- `__repr__` methods: cosmetic.
- `home` (the empty `/` route): it touches no data.
