/**
 * The poll-submission procedure of the create page: the fail-fast checks on
 * the form, the assembly of the poll record, and what the page does with the
 * store's reply (the creator marker and the one-time hero flag in local
 * storage, the navigation to the creator link, or one generic error).
 */
module CreatePage {
  import opened Wrappers
  import opened Slots

  const TitleMissing := "Please provide a title."
  const NoSlots := "Please select at least one time slot for invitees."
  const PastSlots := "Chosen time slots must not be in the past."
  const CreationFailed := "Poll creation failed, please try again later."

  /** Local-storage key of the one-time hero flag, and the values written. */
  const HeroKey := "heroShowed"
  const HeroShown := "true"
  const CreatorMark := "creator"

  /** The dynamic route of a poll's detail page. */
  const PollRoute := "/poll/"

  /** Status code the store answers a successful creation with. */
  const CreatedStatus := 201

  /** The message banner's state: whether it is shown, and its text. */
  datatype Response = Response(status: bool, msg: string)

  /** The poll record handed to the store. */
  datatype Poll = Poll(title: string, description: string, location: string, secret: string, times: seq<Time>)

  /** A character of nanoid's URL-safe alphabet. */
  predicate UrlSafe(c: char) {
    'A' <= c <= 'Z' || 'a' <= c <= 'z' || '0' <= c <= '9' || c == '_' || c == '-'
  }

  /** What `nanoid(10)` yields: ten characters of the URL-safe alphabet. */
  type Secret = s: string | |s| == 10 && forall i :: 0 <= i < |s| ==> UrlSafe(s[i])
    witness "0000000000"

  /** How the awaited `createPoll` call settled: a response, or a thrown error. */
  datatype Reply = Responded(statusCode: int, id: string) | Thrown

  predicate Created(reply: Reply) {
    reply.Responded? && reply.statusCode == CreatedStatus
  }

  /**
   * The checks of `handleSubmit` in their order (title, then an undefined or
   * empty slot list, then slots in the past), and on success the poll record
   * with the text fields and slots as given and the secret encrypted.
   */
  function PreparePoll(title: string, description: string, location: string, times: Option<seq<Time>>,
                       encrypt: string -> string, secret: Secret, now: int): (r: Result<Poll, string>)
    ensures r.Failure? <==> title == "" || times.None? || times.value == []
                            || exists i :: 0 <= i < |times.value| && times.value[i].start < now
    ensures title == "" ==> r == Failure(TitleMissing)
    ensures title != "" && (times.None? || times.value == []) ==> r == Failure(NoSlots)
    ensures r.Failure? && title != "" && times.Some? && times.value != [] ==> r == Failure(PastSlots)
    ensures r.Success? ==> r.value.title == title && r.value.description == description
                           && r.value.location == location && r.value.times == times.value
                           && r.value.secret == encrypt(secret)
  {
    if title == "" then Failure(TitleMissing)
    else if times.None? || |times.value| == 0 then Failure(NoSlots)
    else if !AreTimesValid(times, now) then Failure(PastSlots)
    else Success(Poll(title, description, location, encrypt(secret), times.value))
  }

  /**
   * The hero flag is set unless it already reads "true"; every other entry
   * is kept.
   */
  function MarkHeroShown(storage: map<string, string>): (r: map<string, string>)
    ensures r.Keys == storage.Keys + {HeroKey}
    ensures r[HeroKey] == HeroShown
    ensures forall k :: k in storage && k != HeroKey ==> r[k] == storage[k]
  {
    if HeroKey in storage && storage[HeroKey] == HeroShown then storage
    else storage[HeroKey := HeroShown]
  }

  /** Setting the flag once it is set changes nothing. */
  lemma HeroFlagWrittenOnce(storage: map<string, string>)
    requires HeroKey in storage && storage[HeroKey] == HeroShown
    ensures MarkHeroShown(storage) == storage
  {
  }

  /**
   * Local storage after a creation with id `id`: the id maps to "creator",
   * then the hero flag is set. An id equal to the flag's key is overwritten
   * by the flag.
   */
  function RecordCreator(storage: map<string, string>, id: string): (r: map<string, string>)
    ensures r.Keys == storage.Keys + {id, HeroKey}
    ensures id != HeroKey ==> r[id] == CreatorMark
    ensures r[HeroKey] == HeroShown
    ensures forall k :: k in storage && k != id && k != HeroKey ==> r[k] == storage[k]
  {
    MarkHeroShown(storage[id := CreatorMark])
  }

  /** Marking the same poll twice leaves local storage as marking it once. */
  lemma RecordCreatorIdempotent(storage: map<string, string>, id: string)
    ensures RecordCreator(RecordCreator(storage, id), id) == RecordCreator(storage, id)
  {
  }

  /**
   * `showHero`: shown during server rendering, and in the browser exactly
   * when the stored flag does not read "true".
   */
  function ShowHero(inBrowser: bool, storage: map<string, string>): (show: bool)
    ensures !show <==> inBrowser && HeroKey in storage && storage[HeroKey] == HeroShown
  {
    if !inBrowser then true
    else !(HeroKey in storage && storage[HeroKey] == HeroShown)
  }

  /** After any successful creation the browser no longer shows the hero. */
  lemma HeroHiddenAfterCreation(storage: map<string, string>, id: string)
    ensures !ShowHero(true, RecordCreator(storage, id))
  {
  }

  /** The creator link `/poll/{id}/{secret}`, carrying the plaintext secret. */
  function PollPath(id: string, secret: Secret): (path: string)
    ensures |path| == |PollRoute| + |id| + 1 + |secret|
    ensures path[..|PollRoute|] == PollRoute
    ensures path[|PollRoute|..|PollRoute| + |id|] == id
    ensures path[|PollRoute| + |id|] == '/'
    ensures path[|path| - |secret|..] == secret
  {
    PollRoute + id + "/" + secret
  }

  /** Index of the first `c` in `s`, or `|s|` when `s` has none. */
  function FirstIndexOf(s: string, c: char): (k: nat)
    ensures k <= |s|
    ensures forall j :: 0 <= j < k ==> s[j] != c
    ensures k < |s| ==> s[k] == c
  {
    if s == [] then 0
    else if s[0] == c then 0
    else 1 + FirstIndexOf(s[1..], c)
  }

  /** Reads the two dynamic segments back out of a `/poll/{id}/{secret}` address. */
  function ParsePollPath(path: string): Option<(string, string)>
  {
    if |path| < |PollRoute| || path[..|PollRoute|] != PollRoute then None
    else
      var rest := path[|PollRoute|..];
      var k := FirstIndexOf(rest, '/');
      if k == |rest| || FirstIndexOf(rest[k + 1..], '/') < |rest[k + 1..]| then None
      else Some((rest[..k], rest[k + 1..]))
  }

  /** The creator link gives back the poll id and the plaintext secret. */
  lemma {:induction false} PollPathRoundTrip(id: string, secret: Secret)
    requires forall i :: 0 <= i < |id| ==> id[i] != '/'
    ensures ParsePollPath(PollPath(id, secret)) == Some((id, secret))
  {
    var path := PollPath(id, secret);
    var rest := path[|PollRoute|..];
    assert rest == id + "/" + secret;
    var k := FirstIndexOf(rest, '/');
    assert rest[|id|] == '/';
    assert k == |id| by {
      forall j | 0 <= j < |id| ensures rest[j] != '/' { assert rest[j] == id[j]; }
    }
    assert rest[k + 1..] == secret;
    assert forall i :: 0 <= i < |secret| ==> secret[i] != '/';
    assert rest[..k] == id;
    assert path[..|PollRoute|] == PollRoute;
  }

  /** Every address the parser accepts is a creator link built from its segments. */
  lemma ParsedPathRebuilds(path: string, id: string, secret: string)
    requires ParsePollPath(path) == Some((id, secret))
    ensures path == PollRoute + id + "/" + secret
    ensures forall i :: 0 <= i < |id| ==> id[i] != '/'
    ensures forall i :: 0 <= i < |secret| ==> secret[i] != '/'
  {
  }

  /** The plaintext secret and the poll record of a submission awaiting its reply. */
  datatype Pending = Pending(poll: Poll, secret: Secret)

  /**
   * The create page's component state. `encrypt` stands for the helper of the
   * same name, whose definition is not part of this model; `storage` for the
   * browser's local storage; `navigation` for the address the router was sent
   * to; `inFlight` for the poll and secret of the request being awaited.
   */
  class CreateForm {
    const encrypt: string -> string
    var title: string
    var location: string
    var description: string
    var times: Option<seq<Time>>
    var disabled: bool
    var response: Response
    var storage: map<string, string>
    var navigation: Option<string>
    var inFlight: Option<Pending>

    /**
     * The submit control's state machine: idle (enabled), submitting
     * (disabled, one request in flight) or navigated (disabled, link taken).
     */
    ghost predicate Valid()
      reads this
    {
      && (inFlight.Some? ==> disabled && navigation.None?)
      && (navigation.Some? ==> disabled)
      && (disabled ==> inFlight.Some? || navigation.Some?)
    }

    constructor (encrypt: string -> string, storage: map<string, string>)
      ensures Valid()
      ensures this.encrypt == encrypt && this.storage == storage
      ensures title == "" && location == "" && description == "" && times.None?
      ensures !disabled && response == Response(false, "")
      ensures navigation.None? && inFlight.None?
    {
      this.encrypt := encrypt;
      this.storage := storage;
      title, location, description, times := "", "", "", None;
      disabled := false;
      response := Response(false, "");
      navigation, inFlight := None, None;
    }

    method OnTitleChange(value: string)
      modifies this`title
      ensures title == value
    {
      title := value;
    }

    method OnLocationChange(value: string)
      modifies this`location
      ensures location == value
    {
      location := value;
    }

    method OnDescriptionChange(value: string)
      modifies this`description
      ensures description == value
    {
      description := value;
    }

    method OnTimesChange(selections: seq<Selection>)
      modifies this`times
      ensures times == Some(ToTimes(selections))
    {
      times := Some(ToTimes(selections));
    }

    /**
     * The synchronous part of `handleSubmit`: run the checks; on a failed
     * check show its message and change nothing else; otherwise build the
     * poll, disable the control and return the request to send.
     */
    method BeginSubmit(secret: Secret, now: int) returns (request: Option<Poll>)
      requires Valid() && !disabled
      modifies this`response, this`disabled, this`inFlight
      ensures Valid()
      ensures var r := PreparePoll(title, description, location, times, encrypt, secret, now);
        if r.Failure? then
          && request.None? && response == Response(true, r.error)
          && !disabled && inFlight.None?
        else
          && request == Some(r.value) && response == old(response)
          && disabled && inFlight == Some(Pending(r.value, secret))
    {
      var r := PreparePoll(title, description, location, times, encrypt, secret, now);
      if r.Failure? {
        response := Response(true, r.error);
        request := None;
        return;
      }
      disabled := true;
      inFlight := Some(Pending(r.value, secret));
      request := Some(r.value);
    }

    /**
     * The part of `handleSubmit` after `createPoll` settles: on status 201
     * mark the poll and the hero flag in local storage and go to the creator
     * link with the plaintext secret; on any other status or a thrown error
     * re-enable the control and show the generic failure.
     */
    method Resolve(reply: Reply)
      requires Valid() && inFlight.Some?
      modifies this`response, this`disabled, this`inFlight, this`storage, this`navigation
      ensures Valid() && inFlight.None?
      ensures Created(reply) ==>
        && storage == RecordCreator(old(storage), reply.id)
        && navigation == Some(PollPath(reply.id, old(inFlight).value.secret))
        && disabled && response == old(response)
      ensures !Created(reply) ==>
        && storage == old(storage) && navigation.None?
        && !disabled && response == Response(true, CreationFailed)
    {
      var secret := inFlight.value.secret;
      inFlight := None;
      if Created(reply) {
        storage := storage[reply.id := CreatorMark];
        if !(HeroKey in storage && storage[HeroKey] == HeroShown) {
          storage := storage[HeroKey := HeroShown];
        }
        navigation := Some(PollRoute + reply.id + "/" + secret);
      } else {
        disabled := false;
        response := Response(true, CreationFailed);
      }
    }

    /**
     * `handleSubmit` run to completion, with `reply` standing for the settled
     * `createPoll` call; `sent` is the one request made, if any.
     */
    method HandleSubmit(secret: Secret, now: int, reply: Reply) returns (sent: Option<Poll>)
      requires Valid() && !disabled
      modifies this`response, this`disabled, this`inFlight, this`storage, this`navigation
      ensures Valid() && inFlight.None?
      ensures var r := PreparePoll(title, description, location, times, encrypt, secret, now);
        if r.Failure? then
          && sent.None? && response == Response(true, r.error)
          && !disabled && storage == old(storage) && navigation.None?
        else if Created(reply) then
          && sent == Some(r.value) && response == old(response)
          && disabled && storage == RecordCreator(old(storage), reply.id)
          && navigation == Some(PollPath(reply.id, secret))
        else
          && sent == Some(r.value) && response == Response(true, CreationFailed)
          && !disabled && storage == old(storage) && navigation.None?
    {
      sent := BeginSubmit(secret, now);
      if sent.Some? {
        Resolve(reply);
      }
    }
  }
}
