/**
 * Clients of the create page that use only the contracts: typical
 * submissions, one form per submission.
 */
module Scenarios {
  import opened Wrappers
  import opened Slots
  import opened CreatePage

  /** A one-hour slot starting an hour from `now`, created with id "abc123". */
  method ScenarioCreated(encrypt: string -> string, secret: Secret, now: int)
  {
    var form := new CreateForm(encrypt, map[]);
    form.OnTitleChange("Team sync");
    form.OnTimesChange([Selection(Date(now + 3600000), Date(now + 7200000))]);
    var slots := [Time(now + 3600000, now + 7200000)];
    assert form.times.value[0] == slots[0];
    assert form.times.value == slots;
    var sent := form.HandleSubmit(secret, now, Responded(201, "abc123"));
    assert sent == Some(Poll("Team sync", "", "", encrypt(secret), slots));
    assert form.storage["abc123"] == CreatorMark;
    assert PollPath("abc123", secret) == "/poll/abc123/" + secret;
    assert form.navigation == Some("/poll/abc123/" + secret);
    assert form.disabled;
  }

  /** An empty title is reported first, even with no slots chosen. */
  method ScenarioNoTitle(encrypt: string -> string, secret: Secret, now: int, reply: Reply)
  {
    var form := new CreateForm(encrypt, map["x" := "creator"]);
    var sent := form.HandleSubmit(secret, now, reply);
    assert sent.None? && form.response == Response(true, "Please provide a title.");
    assert form.storage == map["x" := "creator"] && form.navigation.None? && !form.disabled;
  }

  /** A slot that started a second ago rejects the submission. */
  method ScenarioPastSlot(encrypt: string -> string, secret: Secret, now: int, reply: Reply)
  {
    var form := new CreateForm(encrypt, map[]);
    form.OnTitleChange("X");
    form.OnTimesChange([Selection(Date(now + 5000), Date(now + 6000)), Selection(Date(now - 1000), Date(now + 1000))]);
    var sent := form.HandleSubmit(secret, now, reply);
    assert sent.None? && form.response == Response(true, "Chosen time slots must not be in the past.");
  }

  /** A non-201 status leaves the form enabled, unmarked, on the same page; a retry can follow. */
  method ScenarioRejectedThenRetried(encrypt: string -> string, secret: Secret, again: Secret, now: int)
  {
    var form := new CreateForm(encrypt, map[]);
    form.OnTitleChange("X");
    form.OnTimesChange([Selection(Date(now), Date(now + 1000))]);
    var sent := form.HandleSubmit(secret, now, Responded(500, "abc123"));
    assert sent.Some? && form.response == Response(true, "Poll creation failed, please try again later.");
    assert form.storage == map[] && form.navigation.None? && !form.disabled;
    sent := form.HandleSubmit(again, now, Thrown);
    assert sent.Some? && sent.value.secret == encrypt(again) && !form.disabled;
  }
}
