/**
 * The teams HTTP handler of api/teams-api.js: `generateID`, which interleaves a
 * timestamp rendering with a random fragment, and the request dispatcher, which
 * decides on method, url and body fields which store call to make or which
 * error to answer. The store calls themselves are abstract: the dispatcher
 * returns the call, and `Complete` maps the store's outcome to the response.
 */
module TeamsApi {
  import opened Wrappers
  import opened JsValues

  function Min(a: nat, b: nat): nat { if a <= b then a else b }

  function Max(a: nat, b: nat): nat { if a >= b then a else b }

  /**
   * `s.substr(start, length)` for non-negative arguments: the characters of `s`
   * from `start` on, at most `length` of them.
   */
  function Substr(s: string, start: nat, length: nat): (r: string)
    ensures |r| == Min(length, if start <= |s| then |s| - start else 0)
    ensures forall i :: 0 <= i < |r| ==> start + i < |s| && r[i] == s[start + i]
  {
    if start >= |s| then "" else s[start..start + Min(length, |s| - start)]
  }

  /** `Math.random().toString(36).substr(2, 10)`: the rendering with its leading "0." dropped, at most 10 characters. */
  function RandomFragment(rendering: string): (r: string)
    ensures |r| == Min(10, if |rendering| >= 2 then |rendering| - 2 else 0)
    ensures |r| <= 10
    ensures |rendering| >= 12 ==> |r| == 10
    ensures forall i :: 0 <= i < |r| ==> 2 + i < |rendering| && r[i] == rendering[2 + i]
  {
    Substr(rendering, 2, 10)
  }

  /** Pairs up two strings of equal length: a[0], b[0], a[1], b[1], ... */
  function Zip(a: string, b: string): (z: string)
    requires |a| == |b|
    ensures |z| == 2 * |a|
  {
    if |a| == 0 then [] else [a[0], b[0]] + Zip(a[1..], b[1..])
  }

  /** Position `2i` of a zip holds `a[i]` and position `2i + 1` holds `b[i]`. */
  lemma {:induction false} ZipAt(a: string, b: string, i: nat)
    requires |a| == |b| && i < |a|
    ensures Zip(a, b)[2 * i] == a[i] && Zip(a, b)[2 * i + 1] == b[i]
  {
    if i > 0 {
      ZipAt(a[1..], b[1..], i - 1);
    }
  }

  /**
   * What `generateID` builds from `timestamp` and `randomString`: for each index
   * below the longer length, the timestamp's character there (if any), then the
   * random string's character there (if any).
   */
  function Interleave(t: string, r: string): (out: string)
    ensures |out| == |t| + |r|
  {
    var m := Min(|t|, |r|);
    Zip(t[..m], r[..m]) + t[m..] + r[m..]
  }

  /** Past the common length, the output is the rest of the longer input. */
  lemma InterleaveTail(t: string, r: string)
    ensures var m := Min(|t|, |r|);
      Interleave(t, r)[2 * m..] == if |t| >= |r| then t[m..] else r[m..]
  {
    var m := Min(|t|, |r|);
    assert Interleave(t, r) == Zip(t[..m], r[..m]) + (t[m..] + r[m..]);
  }

  /** Where the interleave puts `t[i]`: at `2i` while both inputs last, after that right after its predecessor. */
  function LeftPos(t: nat, r: nat, i: nat): (p: nat)
    ensures i < t ==> p < t + r
  {
    if i < Min(t, r) then 2 * i else Min(t, r) + i
  }

  /** Where the interleave puts `r[j]`: at `2j + 1` while both inputs last, after that right after its predecessor. */
  function RightPos(t: nat, r: nat, j: nat): (p: nat)
    ensures j < r ==> p < t + r
  {
    if j < Min(t, r) then 2 * j + 1 else Min(t, r) + j
  }

  /** Both position maps are increasing, and no position is used by both. */
  lemma PositionsOrderedAndDisjoint(t: nat, r: nat)
    ensures forall i, i' :: 0 <= i < i' < t ==> LeftPos(t, r, i) < LeftPos(t, r, i')
    ensures forall j, j' :: 0 <= j < j' < r ==> RightPos(t, r, j) < RightPos(t, r, j')
    ensures forall i, j :: 0 <= i < t && 0 <= j < r ==> LeftPos(t, r, i) != RightPos(t, r, j)
  {
  }

  /** Every output position is the position of some timestamp character or of some random character. */
  lemma PositionsCover(t: nat, r: nat, k: nat) returns (fromLeft: bool, i: nat)
    requires k < t + r
    ensures fromLeft ==> i < t && LeftPos(t, r, i) == k
    ensures !fromLeft ==> i < r && RightPos(t, r, i) == k
  {
    var m := Min(t, r);
    if k < 2 * m {
      fromLeft, i := k % 2 == 0, k / 2;
    } else {
      fromLeft, i := t >= r, k - m;
    }
  }

  /** `out` holds `t[i]` at `LeftPos` and `r[j]` at `RightPos`, and nothing else. */
  ghost predicate IsMergeOf(out: string, t: string, r: string) {
    && |out| == |t| + |r|
    && (forall i :: 0 <= i < |t| ==> out[LeftPos(|t|, |r|, i)] == t[i])
    && (forall j :: 0 <= j < |r| ==> out[RightPos(|t|, |r|, j)] == r[j])
  }

  lemma InterleaveLeft(t: string, r: string, i: nat)
    requires i < |t|
    ensures Interleave(t, r)[LeftPos(|t|, |r|, i)] == t[i]
  {
    var m := Min(|t|, |r|);
    if i < m {
      ZipAt(t[..m], r[..m], i);
    } else {
      InterleaveTail(t, r);
      assert Interleave(t, r)[2 * m..][i - m] == t[m..][i - m];
    }
  }

  lemma InterleaveRight(t: string, r: string, j: nat)
    requires j < |r|
    ensures Interleave(t, r)[RightPos(|t|, |r|, j)] == r[j]
  {
    var m := Min(|t|, |r|);
    if j < m {
      ZipAt(t[..m], r[..m], j);
    } else {
      InterleaveTail(t, r);
      assert Interleave(t, r)[2 * m..][j - m] == r[m..][j - m];
    }
  }

  /** The interleave is an order-preserving merge of its two inputs. */
  lemma InterleaveMerges(t: string, r: string)
    ensures IsMergeOf(Interleave(t, r), t, r)
  {
    forall i | 0 <= i < |t| ensures Interleave(t, r)[LeftPos(|t|, |r|, i)] == t[i] {
      InterleaveLeft(t, r, i);
    }
    forall j | 0 <= j < |r| ensures Interleave(t, r)[RightPos(|t|, |r|, j)] == r[j] {
      InterleaveRight(t, r, j);
    }
  }

  /** ... and the only one: any string merging `t` and `r` at those positions is their interleave. */
  lemma MergeIsInterleave(out: string, t: string, r: string)
    requires IsMergeOf(out, t, r)
    ensures out == Interleave(t, r)
  {
    var expected := Interleave(t, r);
    InterleaveMerges(t, r);
    forall k | 0 <= k < |out| ensures out[k] == expected[k] {
      var fromLeft, i := PositionsCover(|t|, |r|, k);
    }
  }

  /** `generateID()`, with the clock's and the random generator's base-36 renderings passed in. */
  method GenerateId(timestamp: string, randomRendering: string) returns (id: string)
    ensures id == Interleave(timestamp, RandomFragment(randomRendering))
    ensures IsMergeOf(id, timestamp, RandomFragment(randomRendering))
    ensures |id| == |timestamp| + |RandomFragment(randomRendering)| <= |timestamp| + 10
  {
    var randomString := RandomFragment(randomRendering);
    var t, r := |timestamp|, |randomString|;
    var maxLength := Max(t, r);
    id := "";
    for i := 0 to maxLength
      invariant |id| == Min(i, t) + Min(i, r)
      invariant forall k :: 0 <= k < Min(i, t) ==> id[LeftPos(t, r, k)] == timestamp[k]
      invariant forall k :: 0 <= k < Min(i, r) ==> id[RightPos(t, r, k)] == randomString[k]
    {
      if i < t {
        assert |id| == LeftPos(t, r, i);
        id := id + [timestamp[i]];
      }
      if i < r {
        assert |id| == RightPos(t, r, i);
        id := id + [randomString[i]];
      }
    }
    MergeIsInterleave(id, timestamp, randomString);
  }

  /** The fields of a request body the handler reads. */
  datatype Body = Body(teamName: Option<string>, teamAddress: Option<string>, id: Option<string>)

  datatype Request = Request(verb: string, url: string, body: Body)

  /** The four routes the handler serves, and everything else. */
  datatype Route = AddTeam | GetTeam | DeleteTeam | AllTeams | Unrouted

  function RouteOf(req: Request): (route: Route)
    ensures route != Unrouted ==> req.verb == "POST"
    ensures route == AddTeam <==> req.verb == "POST" && req.url == "/api/teams/add"
    ensures route == GetTeam <==> req.verb == "POST" && req.url == "/api/teams/get"
    ensures route == DeleteTeam <==> req.verb == "POST" && req.url == "/api/teams/delete"
    ensures route == AllTeams <==> req.verb == "POST" && req.url == "/api/teams/all"
  {
    if req.verb == "POST" && req.url == "/api/teams/add" then AddTeam
    else if req.verb == "POST" && req.url == "/api/teams/get" then GetTeam
    else if req.verb == "POST" && req.url == "/api/teams/delete" then DeleteTeam
    else if req.verb == "POST" && req.url == "/api/teams/all" then AllTeams
    else Unrouted
  }

  /** A row of the teams table, as the store returns it. */
  datatype TeamRow = TeamRow(columns: map<string, string>)

  /** The store call a request leads to. */
  datatype StoreCall =
    | InsertTeam(teamId: string, teamName: string, teamAddress: string)
    | FetchTeam(id: string)
    | RemoveTeam(id: string)
    | FetchTeams

  datatype Reply =
    | MessageReply(message: string)
    | ErrorReply(error: string)
    | TeamReply(team: seq<TeamRow>)
    | TeamsReply(teams: seq<TeamRow>)

  datatype Response = Response(status: nat, reply: Reply)

  /** What the handler does with a request: call the store, answer at once, or nothing at all. */
  datatype Outcome = Call(call: StoreCall) | Respond(response: Response) | NoResponse

  const MissingFields: Response := Response(400, ErrorReply("Missing required fields"))

  /** The fields a route needs are all truthy. */
  predicate HasRequiredFields(route: Route, body: Body) {
    match route
    case AddTeam => Truthy(body.teamName) && Truthy(body.teamAddress)
    case GetTeam => Truthy(body.id)
    case DeleteTeam => Truthy(body.id)
    case _ => true
  }

  /**
   * `teamsApi(req, res)` up to the store call. `teamId` is the id `generateID`
   * made for this request (the handler makes one on the add route before it
   * checks the fields).
   */
  function Dispatch(req: Request, teamId: string): (o: Outcome)
    ensures o.NoResponse? <==> RouteOf(req) == Unrouted
    ensures o.Respond? <==> RouteOf(req) != Unrouted && !HasRequiredFields(RouteOf(req), req.body)
    ensures o.Respond? ==> o.response == MissingFields
    ensures o.Call? ==> match o.call
      case InsertTeam(id, name, address) =>
        RouteOf(req) == AddTeam && id == teamId
        && Truthy(req.body.teamName) && name == req.body.teamName.value
        && Truthy(req.body.teamAddress) && address == req.body.teamAddress.value
      case FetchTeam(id) => RouteOf(req) == GetTeam && Truthy(req.body.id) && id == req.body.id.value
      case RemoveTeam(id) => RouteOf(req) == DeleteTeam && Truthy(req.body.id) && id == req.body.id.value
      case FetchTeams => RouteOf(req) == AllTeams
  {
    var body := req.body;
    match RouteOf(req)
    case AddTeam =>
      if Truthy(body.teamName) && Truthy(body.teamAddress)
      then Call(InsertTeam(teamId, body.teamName.value, body.teamAddress.value))
      else Respond(MissingFields)
    case GetTeam =>
      if Truthy(body.id) then Call(FetchTeam(body.id.value)) else Respond(MissingFields)
    case DeleteTeam =>
      if Truthy(body.id) then Call(RemoveTeam(body.id.value)) else Respond(MissingFields)
    case AllTeams => Call(FetchTeams)
    case Unrouted => NoResponse
  }

  /** How a store call settles: resolved with rows, or rejected with an error message. */
  datatype StoreResult = Resolved(rows: seq<TeamRow>) | Rejected(message: string)

  /** The response the `.then` / `.catch` continuation of a store call sends. */
  function Complete(call: StoreCall, result: StoreResult): (resp: Response)
    ensures result.Resolved? <==> 200 <= resp.status < 300
    ensures result.Resolved? ==> resp.status == if call.InsertTeam? then 201 else 200
    ensures result.Resolved? && call.InsertTeam? ==> resp.reply == MessageReply("Team created successfully!")
    ensures result.Resolved? && call.RemoveTeam? ==> resp.reply == MessageReply("Team deleted successfully!")
    ensures result.Rejected? ==> resp.reply == ErrorReply(result.message)
    ensures resp.status == 201 <==> call.InsertTeam? && result.Resolved?
    ensures resp.status == 404 <==> call.FetchTeam? && result.Rejected?
    ensures resp.status == 500 <==> !call.FetchTeam? && result.Rejected?
    ensures result.Resolved? && call.FetchTeam? ==> resp.reply == TeamReply(result.rows)
    ensures result.Resolved? && call.FetchTeams? ==> resp.reply == TeamsReply(result.rows)
  {
    match result
    case Rejected(message) =>
      Response(if call.FetchTeam? then 404 else 500, ErrorReply(message))
    case Resolved(rows) =>
      match call
      case InsertTeam(_, _, _) => Response(201, MessageReply("Team created successfully!"))
      case FetchTeam(_) => Response(200, TeamReply(rows))
      case RemoveTeam(_) => Response(200, MessageReply("Team deleted successfully!"))
      case FetchTeams => Response(200, TeamsReply(rows))
  }
}
