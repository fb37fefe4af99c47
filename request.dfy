/** The `GET` handler of the card route: reading the toggles from the query
    string, rejecting a request without a user name, reporting a user the
    upstream does not know, and otherwise rendering the card. */
module Request {
  import opened Optional
  import CardData
  import Card
  import Heatmap

  /** The query string, one value per parameter name. */
  type Params = map<string, string>

  const UsernameParam := "username"
  const Off := "false"
  /** The parameter name of each toggle. */
  const ToggleNames: seq<string> := ["difficulty", "activity", "skills", "badges", "submissions", "beats", "rank"]

  function Get(params: Params, name: string): Option<string>
  {
    if name in params then Some(params[name]) else None
  }

  /** A toggle is on unless its parameter is exactly "false". */
  function Toggle(params: Params, name: string): (on: bool)
    ensures !on <==> Get(params, name) == Some(Off)
  {
    Get(params, name) != Some(Off)
  }

  function ParseOptions(params: Params): Card.Options
  {
    Card.Options(
      Toggle(params, "difficulty"), Toggle(params, "activity"), Toggle(params, "skills"),
      Toggle(params, "badges"), Toggle(params, "submissions"), Toggle(params, "beats"),
      Toggle(params, "rank"))
  }

  /** Adds the "false" value of a toggle that is off. */
  function SetIfOff(params: Params, name: string, on: bool): Params
  {
    if on then params else params[name := Off]
  }

  /** The query string the form builds: the user name, and "false" for each
      toggle that is off; toggles that are on are left out. */
  function EncodeForm(username: string, o: Card.Options): (params: Params)
    ensures Get(params, UsernameParam) == Some(username)
    ensures forall n :: n in params && n != UsernameParam ==> params[n] == Off
  {
    var p := map[UsernameParam := username];
    var p := SetIfOff(p, "difficulty", o.difficulty);
    var p := SetIfOff(p, "activity", o.activity);
    var p := SetIfOff(p, "skills", o.stats);
    var p := SetIfOff(p, "badges", o.badges);
    var p := SetIfOff(p, "submissions", o.submissions);
    var p := SetIfOff(p, "beats", o.beats);
    SetIfOff(p, "rank", o.rank)
  }

  /** The toggles in the order of `ToggleNames`. */
  function Flags(o: Card.Options): (flags: seq<bool>)
    ensures |flags| == |ToggleNames|
  {
    [o.difficulty, o.activity, o.stats, o.badges, o.submissions, o.beats, o.rank]
  }

  /** Each named toggle is parsed as off exactly when its parameter is
      "false". */
  lemma ParseOptionsByName(params: Params, k: nat)
    requires k < |ToggleNames|
    ensures !Flags(ParseOptions(params))[k] <==> Get(params, ToggleNames[k]) == Some(Off)
  {
  }

  /** Without any parameters every section is shown. */
  lemma AllOnByDefault()
    ensures ParseOptions(map[]) == Card.Options(true, true, true, true, true, true, true)
  {
  }

  /** Whatever the form encodes, the route decodes back. */
  lemma FormRoundTrip(username: string, o: Card.Options)
    ensures ParseOptions(EncodeForm(username, o)) == o
    ensures Get(EncodeForm(username, o), UsernameParam) == Some(username)
  {
  }

  // ---------------------------------------------------------------------
  // Does the user exist?

  datatype QueryKey = Problems | Activity | Skills | Profile | Submissions

  /** The order in which the results are fetched and then inspected. */
  const QueryKeys: seq<QueryKey> := [Problems, Activity, Skills, Profile, Submissions]

  /** Whether the result of one query carries a `matchedUser`. The
      recent-submissions result has no such field. */
  function HasMatchedUser(data: CardData.Fetched, k: QueryKey): bool
  {
    match k
    case Problems => data.problems.Some? && data.problems.value.matchedUser.Some?
    case Activity => data.activity.Some? && data.activity.value.matchedUser.Some?
    case Skills => data.skills.Some? && data.skills.value.matchedUser.Some?
    case Profile => data.profile.Some? && data.profile.value.matchedUser.Some?
    case Submissions => false
  }

  /** The user exists when some query found them. */
  function UserKnown(data: CardData.Fetched): bool
  {
    || HasMatchedUser(data, Problems) || HasMatchedUser(data, Activity)
    || HasMatchedUser(data, Skills) || HasMatchedUser(data, Profile)
  }

  /** Known means: some result, in fetch order, found the user. */
  lemma UserKnownInOrder(data: CardData.Fetched)
    ensures UserKnown(data) <==> exists j :: 0 <= j < |QueryKeys| && HasMatchedUser(data, QueryKeys[j])
  {
    if UserKnown(data) {
      var j := if HasMatchedUser(data, Problems) then 0
        else if HasMatchedUser(data, Activity) then 1
        else if HasMatchedUser(data, Skills) then 2
        else 3;
      assert HasMatchedUser(data, QueryKeys[j]);
    }
  }

  /** Scans the results in fetch order and stops at the first that found
      the user. */
  method UserExists(data: CardData.Fetched) returns (exists_: bool)
    ensures exists_ == UserKnown(data)
  {
    exists_ := false;
    var i := 0;
    while i < |QueryKeys|
      invariant 0 <= i <= |QueryKeys|
      invariant !exists_
      invariant forall j :: 0 <= j < i ==> !HasMatchedUser(data, QueryKeys[j])
    {
      if HasMatchedUser(data, QueryKeys[i]) {
        exists_ := true;
        break;
      }
      i := i + 1;
    }
    UserKnownInOrder(data);
  }

  // ---------------------------------------------------------------------
  // The response

  datatype Response = BadRequest | NotFound(username: string) | Rendered(card: Card.Card)

  function Status(r: Response): int
  {
    match r
    case BadRequest => 400
    case NotFound(_) => 404
    case Rendered(_) => 200
  }

  /** A user name is usable when present and non-empty. */
  predicate HasUsername(params: Params)
  {
    Get(params, UsernameParam).Some? && Get(params, UsernameParam).value != ""
  }

  /** The status the route answers with. */
  function Decide(params: Params, data: CardData.Fetched): (status: int)
    ensures status in {400, 404, 200}
    ensures status == 400 <==> !HasUsername(params)
    ensures HasUsername(params) ==> (status == 404 <==> !UserKnown(data))
  {
    if !HasUsername(params) then 400 else if !UserKnown(data) then 404 else 200
  }

  /** Handles a card request. `data` is what the upstream queries return
      for the requested user name, and `keys` the calendar keys of the
      last 84 days. */
  method HandleGet(params: Params, data: CardData.Fetched, keys: nat -> Heatmap.DayKey)
    returns (resp: Response)
    ensures Status(resp) == Decide(params, data)
    ensures resp.NotFound? ==> resp.username == Get(params, UsernameParam).value
    ensures resp.Rendered? ==>
      Card.CardFor(resp.card, Get(params, UsernameParam).value, data, ParseOptions(params), keys)
  {
    var username := Get(params, UsernameParam);
    var options := ParseOptions(params);
    if username.None? || username.value == "" {
      return BadRequest;
    }
    var found := UserExists(data);
    if !found {
      return NotFound(username.value);
    }
    var card := Card.GenerateCard(username.value, data, options, keys);
    resp := Rendered(card);
  }

  /** A request built by the form for a non-empty user name is never
      rejected as malformed; it renders with exactly the form's toggles
      once the user is known. */
  lemma FormRequestAccepted(username: string, o: Card.Options, data: CardData.Fetched)
    requires username != ""
    ensures Decide(EncodeForm(username, o), data) == (if UserKnown(data) then 200 else 404)
    ensures ParseOptions(EncodeForm(username, o)) == o
  {
  }

  /** The user is found exactly when one of the first four results carries
      a matched user, whatever the recent-submissions result holds. */
  lemma SubmissionsDoNotMatter(data: CardData.Fetched, subs: Option<CardData.SubmissionsData>)
    ensures UserKnown(data.(submissions := subs)) == UserKnown(data)
  {
  }
}
