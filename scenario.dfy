/**
 * Clients of the store that use only the handlers' contracts: an activity, a
 * camper and a signup between them are created, read back, refused an
 * invalid update and removed again by the cascade.
 */
module Scenario {
  import opened Wrappers
  import opened Models
  import opened Views
  import opened App

  /** A store holding the activity Archery (id 1) and the camper Sam (id 1). */
  method ArcheryAndSam() returns (store: CampStore)
    ensures fresh(store) && store.Valid()
    ensures store.activities == map[1 := Activity("Archery", 3)]
    ensures store.campers == map[1 := Camper("Sam", 12)]
    ensures store.signups == map[] && store.nextSignupId == 1
  {
    store := new CampStore();
    assert ActivityRequest(Some("Archery"), Some(3)) == Ok(Activity("Archery", 3));
    var archery := store.CreateActivity(Some("Archery"), Some(3));
    assert archery == Response(ActivityBody(ActivitySummary(1, "Archery", 3)), 201);
    assert CamperRequest(Some("Sam"), Some(12)) == Ok(Camper("Sam", 12));
    var sam := store.CreateCamper(Some("Sam"), Some(12));
    assert sam == Response(CamperBody(CamperSummary(1, "Sam", 12)), 201);
  }

  /** A new camper's detail view has no signups. */
  method NewCamperHasNoSignups()
  {
    var store := ArcheryAndSam();
    var detail := store.GetCamper(1);
    assert detail.status == 200;
    var entries := detail.body.detail.signups;
    assert SignupsOf(store.signups, 1) == {};
    assert entries == [];
  }

  /** Refused signups create nothing; an accepted one shows up in the detail view. */
  method BookArchery()
  {
    var store := ArcheryAndSam();
    var late := store.CreateSignup(Some(1), Some(1), Some(24));
    assert late == BadRequest;
    var nobody := store.CreateSignup(Some(2), Some(1), Some(9));
    assert nobody == BadRequest && store.signups == map[];

    var booked := store.CreateSignup(Some(1), Some(1), Some(9));
    assert booked.status == 201;
    assert booked.body.signup.camper == CamperSummary(1, "Sam", 12);
    assert booked.body.signup.activity == ActivitySummary(1, "Archery", 3);

    var detail := store.GetCamper(1);
    var entries := detail.body.detail.signups;
    assert SignupsOf(store.signups, 1) == {1};
    assert Ascending({1}) == [1] by {
      LeastExists({1});
      assert Ascending({1} - {1}) == [];
    }
    assert entries == [SignupEntry(1, 9, 1, 1, ActivitySummary(1, "Archery", 3))];
  }

  /** A refused update keeps the camper; deleting the activity takes its signup along. */
  method UpdateThenDelete()
  {
    var store := ArcheryAndSam();
    var booked := store.CreateSignup(Some(1), Some(1), Some(9));
    assert store.signups == map[1 := Signup(9, 1, 1)];

    var tooOld := store.UpdateCamper(1, [SetAge(25)]);
    assert tooOld == BadRequest && store.campers[1] == Camper("Sam", 12);

    var renamed := store.UpdateCamper(1, [SetName("Sammy"), SetAge(13)]);
    assert renamed.status == 202 && store.campers[1] == Camper("Sammy", 13);

    var gone := store.DeleteActivity(1);
    assert gone.status == 204;
    assert 1 !in store.signups && store.signups.Keys <= {1};
    assert store.signups == map[];
    var missing := store.GetActivity(1);
    assert missing == Response(ErrorBody("Activity not found"), 404);
  }
}
