/** source/database.ts: the document-store gateway. Each collection is a map
    from document key to document; a query returns the matching documents in
    the order the store lists the collection, given as `order`. Random keys
    and tokens, the clock and the image upload are inputs; SHA-256 is the
    store's `sha256`, an arbitrary total function. */
module Database {
  import opened Wrappers

  type UserId = string
  type TeamId = string
  type LineUserId = string
  type FileHash = string
  type AccessToken = string
  type AccessTokenHash = string

  /** A Firestore `Timestamp` or a JavaScript `Date`, as an opaque instant. */
  type Timestamp = int

  /** An element of a `Uint8Array`. */
  newtype byte = x: int | 0 <= x < 256

  datatype UserRole = Manager | Player

  /** A document of the `lineLogInState` collection. */
  datatype StateData = StateData(path: string, createdAt: Timestamp)

  /** A document of the `user` collection. */
  datatype UserData = UserData(
    name: string,
    lineUserId: LineUserId,
    imageFileHash: FileHash,
    lastIssuedAccessTokenHash: AccessTokenHash,
    createdAt: Timestamp,
    role: Option<UserRole>,
    teamId: Option<TeamId>)

  /** A document of the `team` collection. */
  datatype TeamData = TeamData(
    id: TeamId,
    name: string,
    createdAt: Timestamp,
    managerId: UserId,
    playerIdList: seq<UserId>)

  /** The `{ id }` objects that stand for a related entity. */
  datatype TeamRef = TeamRef(id: TeamId)
  datatype UserRef = UserRef(id: UserId)

  /** `GraphQLUserDataLowCost`: a user with its team as a reference. */
  datatype UserLowCost = UserLowCost(
    id: UserId,
    name: string,
    createdAt: Timestamp,
    imageFileHash: FileHash,
    role: Option<UserRole>,
    team: Option<TeamRef>)

  /** What `getTeamData` returns: a team with its members as references. */
  datatype TeamLowCost = TeamLowCost(
    id: TeamId,
    name: string,
    manager: UserRef,
    playerList: seq<UserRef>,
    createdAt: Timestamp)

  /** The errors the gateway throws: a missing document, a `create` over an
      existing one, an access token that matches no user. */
  datatype Error = NotFound(key: string) | AlreadyExists(key: string) | InvalidAccessToken

  // ---------------------------------------------------------------------------
  // Projections from stored documents to the GraphQL shapes

  /** The projection shared by `getUserByAccessToken` and `getUserData`:
      a null `teamId` becomes a null `team`, any other becomes `{ id: teamId }`. */
  function UserLowCostOf(id: UserId, d: UserData): UserLowCost {
    UserLowCost(id, d.name, d.createdAt, d.imageFileHash, d.role,
      match d.teamId
      case None => None
      case Some(t) => Some(TeamRef(t)))
  }

  /** The team id a GraphQL `team` value refers to. */
  function TeamIdOf(team: Option<TeamRef>): Option<TeamId> {
    match team
    case None => None
    case Some(t) => Some(t.id)
  }

  /** The projection keeps every user field it shows, and its team
      reference gives the stored `teamId` back. */
  lemma UserLowCostOfPreserves(id: UserId, d: UserData)
    ensures UserLowCostOf(id, d).id == id
    ensures UserLowCostOf(id, d).team.None? <==> d.teamId.None?
    ensures TeamIdOf(UserLowCostOf(id, d).team) == d.teamId
    ensures UserLowCostOf(id, d).role == d.role
    ensures UserLowCostOf(id, d).name == d.name
    ensures UserLowCostOf(id, d).createdAt == d.createdAt
    ensures UserLowCostOf(id, d).imageFileHash == d.imageFileHash
  {
  }

  /** `playerIdList.map(playerId => ({ id: playerId }))`. */
  function PlayerRefs(ids: seq<UserId>): (refs: seq<UserRef>)
    ensures |refs| == |ids|
    ensures forall i :: 0 <= i < |ids| ==> refs[i].id == ids[i]
  {
    seq(|ids|, i requires 0 <= i < |ids| => UserRef(ids[i]))
  }

  function RefIds(refs: seq<UserRef>): (ids: seq<UserId>)
    ensures |ids| == |refs|
  {
    seq(|refs|, i requires 0 <= i < |refs| => refs[i].id)
  }

  /** The player list gives back exactly the stored ids, in order. */
  lemma PlayerRefsRoundTrip(ids: seq<UserId>)
    ensures RefIds(PlayerRefs(ids)) == ids
  {
  }

  /** `getUserData`: the user document under `userId`, projected; fails when
      there is none. */
  function GetUserData(users: map<UserId, UserData>, userId: UserId): (r: Result<UserLowCost, Error>)
    ensures r.Failure? <==> userId !in users
    ensures r.Failure? ==> r.error == NotFound(userId)
    ensures r.Success? ==> r.value.id == userId
    ensures r.Success? ==> (r.value.name == users[userId].name
                            && r.value.imageFileHash == users[userId].imageFileHash
                            && r.value.role == users[userId].role
                            && r.value.createdAt == users[userId].createdAt)
    ensures r.Success? ==> (r.value.team.None? <==> users[userId].teamId.None?)
    ensures r.Success? && r.value.team.Some? ==> r.value.team.value.id == users[userId].teamId.value
  {
    if userId !in users then Failure(NotFound(userId))
    else Success(UserLowCostOf(userId, users[userId]))
  }

  /** `getTeamData`: the team document under `teamId`, with the manager and
      the players as references; fails when there is none. */
  function GetTeamData(teams: map<TeamId, TeamData>, teamId: TeamId): (r: Result<TeamLowCost, Error>)
    ensures r.Failure? <==> teamId !in teams
    ensures r.Failure? ==> r.error == NotFound(teamId)
    ensures r.Success? ==> (r.value.id == teamId
                            && r.value.name == teams[teamId].name
                            && r.value.createdAt == teams[teamId].createdAt)
    ensures r.Success? ==> r.value.manager.id == teams[teamId].managerId
    ensures r.Success? ==> |r.value.playerList| == |teams[teamId].playerIdList|
    ensures r.Success? ==> forall i :: 0 <= i < |r.value.playerList| ==>
                             r.value.playerList[i].id == teams[teamId].playerIdList[i]
  {
    if teamId !in teams then Failure(NotFound(teamId))
    else
      var d := teams[teamId];
      Success(TeamLowCost(teamId, d.name, UserRef(d.managerId), PlayerRefs(d.playerIdList), d.createdAt))
  }

  // ---------------------------------------------------------------------------
  // Queries: first match in the store's order

  predicate MatchesAt(order: seq<UserId>, users: map<UserId, UserData>, p: UserData -> bool, k: int)
    requires 0 <= k < |order|
  {
    order[k] in users && p(users[order[k]])
  }

  /** The position in `order` of the first document that satisfies `p`. */
  function FirstMatch(order: seq<UserId>, users: map<UserId, UserData>, p: UserData -> bool): (r: Option<nat>)
    ensures r.None? <==> forall k :: 0 <= k < |order| ==> !MatchesAt(order, users, p, k)
    ensures r.Some? ==> r.value < |order| && MatchesAt(order, users, p, r.value)
    ensures r.Some? ==> forall j :: 0 <= j < r.value ==> !MatchesAt(order, users, p, j)
    decreases |order|
  {
    if order == [] then None
    else if order[0] in users && p(users[order[0]]) then
      assert MatchesAt(order, users, p, 0);
      Some(0)
    else
      var rest := FirstMatch(order[1..], users, p);
      assert forall k :: 1 <= k < |order| ==>
        MatchesAt(order, users, p, k) == MatchesAt(order[1..], users, p, k - 1);
      match rest
      case None => None
      case Some(i) =>
        assert MatchesAt(order, users, p, i + 1);
        Some(i + 1)
  }

  /** `order` lists every document of the collection, as a query's
      result does. */
  predicate ListsAll(order: seq<UserId>, users: map<UserId, UserData>) {
    forall id :: id in users ==> id in order
  }

  /** `getUserFromLineAccountId`: the first user whose `lineUserId` is the
      given one, with its key, or null when there is none. */
  function GetUserFromLineAccountId(users: map<UserId, UserData>, order: seq<UserId>, lineUserId: LineUserId)
    : (r: Option<(UserId, UserData)>)
    requires ListsAll(order, users)
    ensures r.None? <==> forall id :: id in users ==> users[id].lineUserId != lineUserId
    ensures r.None? <==> forall k :: 0 <= k < |order| && order[k] in users ==> users[order[k]].lineUserId != lineUserId
    ensures r.Some? ==> r.value.0 in users && users[r.value.0] == r.value.1 && r.value.1.lineUserId == lineUserId
    ensures r.Some? ==> exists k :: 0 <= k < |order| && order[k] == r.value.0
                          && forall j :: 0 <= j < k && order[j] in users ==> users[order[j]].lineUserId != lineUserId
  {
    var p := (d: UserData) => d.lineUserId == lineUserId;
    assert forall k :: 0 <= k < |order| ==>
      (MatchesAt(order, users, p, k) <==> order[k] in users && users[order[k]].lineUserId == lineUserId);
    match FirstMatch(order, users, p)
    case None => None
    case Some(k) =>
      assert 0 <= k < |order|
        && forall j :: 0 <= j < k && order[j] in users ==> users[order[j]].lineUserId != lineUserId;
      Some((order[k], users[order[k]]))
  }

  /** `getUserByAccessToken`: the first user whose stored hash equals the
      hash of `accessToken`, projected; fails when there is none. */
  function GetUserByAccessToken(users: map<UserId, UserData>, order: seq<UserId>,
                                sha256: seq<byte> -> AccessTokenHash, accessToken: AccessToken)
    : (r: Result<UserLowCost, Error>)
    requires ListsAll(order, users)
    ensures var h := HashAccessToken(sha256, accessToken);
      r.Failure? <==> forall id :: id in users ==> users[id].lastIssuedAccessTokenHash != h
    ensures var h := HashAccessToken(sha256, accessToken);
      r.Failure? <==> forall k :: 0 <= k < |order| && order[k] in users ==> users[order[k]].lastIssuedAccessTokenHash != h
    ensures r.Failure? ==> r.error == InvalidAccessToken
    ensures var h := HashAccessToken(sha256, accessToken);
      r.Success? ==> exists k :: 0 <= k < |order| && order[k] in users
                       && users[order[k]].lastIssuedAccessTokenHash == h
                       && r.value == UserLowCostOf(order[k], users[order[k]])
                       && forall j :: 0 <= j < k && order[j] in users ==> users[order[j]].lastIssuedAccessTokenHash != h
  {
    var h := HashAccessToken(sha256, accessToken);
    var p := (d: UserData) => d.lastIssuedAccessTokenHash == h;
    assert forall k :: 0 <= k < |order| ==>
      (MatchesAt(order, users, p, k) <==> order[k] in users && users[order[k]].lastIssuedAccessTokenHash == h);
    match FirstMatch(order, users, p)
    case None => Failure(InvalidAccessToken)
    case Some(k) =>
      assert 0 <= k < |order| && order[k] in users && users[order[k]].lastIssuedAccessTokenHash == h
        && forall j :: 0 <= j < k && order[j] in users ==> users[order[j]].lastIssuedAccessTokenHash != h;
      Success(UserLowCostOf(order[k], users[order[k]]))
  }

  // ---------------------------------------------------------------------------
  // Access tokens and their hashes

  /** `String.prototype.slice(start, end)` for non-negative bounds. */
  function Slice(s: string, start: nat, end: nat): (r: string)
    ensures |r| <= |s|
  {
    var from := if start < |s| then start else |s|;
    var to := if end < |s| then end else |s|;
    if to <= from then "" else s[from..to]
  }

  /** The characters JavaScript trims: WhiteSpace and LineTerminator. */
  predicate IsJsWhiteSpace(c: char) {
    c == '\U{0009}' || c == '\U{000B}' || c == '\U{000C}' || c == '\U{0020}' || c == '\U{00A0}'
    || c == '\U{FEFF}' || c == '\U{1680}' || ('\U{2000}' <= c <= '\U{200A}') || c == '\U{202F}'
    || c == '\U{205F}' || c == '\U{3000}'
    || c == '\U{000A}' || c == '\U{000D}' || c == '\U{2028}' || c == '\U{2029}'
  }

  function TrimStart(s: string): string
    decreases |s|
  {
    if s != [] && IsJsWhiteSpace(s[0]) then TrimStart(s[1..]) else s
  }

  function HexDigitValue(c: char): Option<nat> {
    if '0' <= c <= '9' then Some((c as int) - ('0' as int))
    else if 'a' <= c <= 'f' then Some((c as int) - ('a' as int) + 10)
    else if 'A' <= c <= 'F' then Some((c as int) - ('A' as int) + 10)
    else None
  }

  /** The number of hexadecimal digits at the start of `s`. */
  function HexPrefixLength(s: string): (n: nat)
    ensures n <= |s|
    ensures forall i :: 0 <= i < n ==> HexDigitValue(s[i]).Some?
    ensures n < |s| ==> HexDigitValue(s[n]).None?
    decreases |s|
  {
    if s != [] && HexDigitValue(s[0]).Some? then 1 + HexPrefixLength(s[1..]) else 0
  }

  function HexDigitsValue(s: string): nat
    requires forall i :: 0 <= i < |s| ==> HexDigitValue(s[i]).Some?
    decreases |s|
  {
    if s == [] then 0 else HexDigitsValue(s[..|s| - 1]) * 16 + HexDigitValue(s[|s| - 1]).value
  }

  /** `Number.parseInt(s, 16)`, with `None` for NaN: leading white space is
      skipped, one sign is read, a "0x" or "0X" prefix is dropped, and the
      longest run of hexadecimal digits that follows is the value. */
  function ParseIntHex(s: string): Option<int> {
    var t := TrimStart(s);
    var negative := t != [] && t[0] == '-';
    var u := if t != [] && (t[0] == '-' || t[0] == '+') then t[1..] else t;
    var v := if |u| >= 2 && u[0] == '0' && (u[1] == 'x' || u[1] == 'X') then u[2..] else u;
    var n := HexPrefixLength(v);
    if n == 0 then None
    else
      var m: int := HexDigitsValue(v[..n]);
      Some(if negative then -m else m)
  }

  /** Storing a number into a `Uint8Array`: NaN is 0, any other integer is
      taken modulo 256. */
  function ToUint8(x: Option<int>): byte {
    match x
    case None => 0
    case Some(v) => (v % 256) as byte
  }

  /** What `accessTokenToTypedArray` computes: 24 bytes, byte `i` parsed from
      the two characters at offset `i` (not `2 * i`). */
  function TokenBytes(accessToken: AccessToken): (r: seq<byte>)
    ensures |r| == 24
  {
    seq(24, i requires 0 <= i < 24 => ToUint8(ParseIntHex(Slice(accessToken, i, i + 2))))
  }

  /** `accessTokenToTypedArray`: fills a fresh 24-byte array in a loop. */
  method AccessTokenToTypedArray(accessToken: AccessToken) returns (binary: array<byte>)
    ensures fresh(binary)
    ensures binary.Length == 24
    ensures binary[..] == TokenBytes(accessToken)
  {
    binary := new byte[24];
    for i := 0 to 24
      invariant forall k :: 0 <= k < i ==> binary[k] == TokenBytes(accessToken)[k]
    {
      binary[i] := ToUint8(ParseIntHex(Slice(accessToken, i, i + 2)));
    }
  }

  /** `hashAccessToken`: SHA-256 of the token's bytes. */
  function HashAccessToken(sha256: seq<byte> -> AccessTokenHash, accessToken: AccessToken): AccessTokenHash {
    sha256(TokenBytes(accessToken))
  }

  predicate IsLowerHex(c: char) {
    '0' <= c <= '9' || 'a' <= c <= 'f'
  }

  lemma HexDigitsValueOfPair(a: char, b: char)
    requires IsLowerHex(a) && IsLowerHex(b)
    ensures HexDigitValue(a).Some? && HexDigitValue(b).Some?
    ensures HexPrefixLength([a, b]) == 2
    ensures HexDigitsValue([a, b]) == 16 * HexDigitValue(a).value + HexDigitValue(b).value
  {
    assert [a, b][1..] == [b];
    assert [b][1..] == [];
    assert [a, b][..1] == [a];
    assert [a][..0] == [];
    assert HexDigitsValue([a]) == HexDigitValue(a).value;
  }

  /** For a token of lower-case hexadecimal digits (the form the server
      issues), byte `i` is the two-digit value of characters `i` and `i + 1`;
      neighbouring bytes share a character. */
  lemma {:induction false} TokenBytesOfHex(accessToken: AccessToken, i: nat)
    requires i < 24 && i + 2 <= |accessToken|
    requires IsLowerHex(accessToken[i]) && IsLowerHex(accessToken[i + 1])
    ensures HexDigitValue(accessToken[i]).Some? && HexDigitValue(accessToken[i + 1]).Some?
    ensures TokenBytes(accessToken)[i] as int
         == 16 * HexDigitValue(accessToken[i]).value + HexDigitValue(accessToken[i + 1]).value
  {
    var a, b := accessToken[i], accessToken[i + 1];
    var w := Slice(accessToken, i, i + 2);
    assert w == [a, b];
    HexDigitsValueOfPair(a, b);
    assert TrimStart(w) == w;
    assert w[..2] == w;
    assert ParseIntHex(w) == Some(16 * HexDigitValue(a).value + HexDigitValue(b).value);
  }

  /** Only the first 25 characters of a token reach the hash: two tokens that
      agree on them have the same bytes, so each is accepted for the other. */
  lemma TokensSharingPrefixCollide(sha256: seq<byte> -> AccessTokenHash, t: AccessToken, u: AccessToken)
    requires |t| >= 25 && |u| >= 25 && t[..25] == u[..25]
    ensures TokenBytes(t) == TokenBytes(u)
    ensures HashAccessToken(sha256, t) == HashAccessToken(sha256, u)
  {
    forall i | 0 <= i < 24
      ensures TokenBytes(t)[i] == TokenBytes(u)[i]
    {
      assert t[i] == t[..25][i] == u[..25][i] == u[i];
      assert t[i + 1] == t[..25][i + 1] == u[..25][i + 1] == u[i + 1];
      assert Slice(t, i, i + 2) == t[i..i + 2];
      assert t[i..i + 2] == [t[i], t[i + 1]];
      assert Slice(u, i, i + 2) == u[i..i + 2];
      assert u[i..i + 2] == [u[i], u[i + 1]];
    }
  }

  // ---------------------------------------------------------------------------
  // The store and its writes

  /** The fields of a user document that `createUser` writes. */
  function NewUser(name: string, imageFileHash: FileHash, lineUserId: LineUserId,
                   tokenHash: AccessTokenHash, now: Timestamp): UserData {
    UserData(name, lineUserId, imageFileHash, tokenHash, now, None, None)
  }

  class Store {
    const sha256: seq<byte> -> AccessTokenHash
    var logInStates: map<string, StateData>
    var users: map<UserId, UserData>
    var teams: map<TeamId, TeamData>

    constructor (sha256: seq<byte> -> AccessTokenHash)
      ensures this.sha256 == sha256
      ensures logInStates == map[] && users == map[] && teams == map[]
    {
      this.sha256 := sha256;
      logInStates, users, teams := map[], map[], map[];
    }

    /** `generateAndWriteLogInState`: `create` a state document under the
        fresh key `state` (from `createRandomId`); `create` fails when the key
        is taken. */
    method GenerateAndWriteLogInState(path: string, state: string, now: Timestamp)
      returns (r: Result<string, Error>)
      modifies this
      ensures state in old(logInStates) ==> r == Failure(AlreadyExists(state)) && logInStates == old(logInStates)
      ensures state !in old(logInStates) ==>
                r == Success(state) && logInStates == old(logInStates)[state := StateData(path, now)]
      ensures users == old(users) && teams == old(teams)
    {
      if state in logInStates {
        return Failure(AlreadyExists(state));
      }
      logInStates := logInStates[state := StateData(path, now)];
      r := Success(state);
    }

    /** `checkExistsAndDeleteState`: read the state document; if it exists,
        delete it and return its path, otherwise return null. */
    method CheckExistsAndDeleteState(state: string) returns (r: Option<string>)
      modifies this
      ensures r == if state in old(logInStates) then Some(old(logInStates)[state].path) else None
      ensures logInStates == old(logInStates) - {state}
      ensures users == old(users) && teams == old(teams)
    {
      if state in logInStates {
        var data := logInStates[state];
        logInStates := logInStates - {state};
        return Some(data.path);
      }
      assert logInStates - {state} == logInStates;
      r := None;
    }

    /** `createUser`: `create` a user under the fresh key `userId` with no
        role and no team, storing the hash of the fresh `accessToken` (from
        `createAccessToken`) and returning the token itself. `imageFileHash` is
        what saving the image found at the user's image URL returned. */
    method CreateUser(name: string, imageFileHash: FileHash, lineUserId: LineUserId,
                      userId: UserId, accessToken: AccessToken, now: Timestamp)
      returns (r: Result<AccessToken, Error>)
      modifies this
      ensures userId in old(users) ==> r == Failure(AlreadyExists(userId)) && users == old(users)
      ensures userId !in old(users) ==> r == Success(accessToken)
      ensures userId !in old(users) ==>
                users == old(users)[userId := NewUser(name, imageFileHash, lineUserId,
                                                      HashAccessToken(sha256, accessToken), now)]
      ensures logInStates == old(logInStates) && teams == old(teams)
    {
      if userId in users {
        return Failure(AlreadyExists(userId));
      }
      var binary := AccessTokenToTypedArray(accessToken);
      var tokenHash := sha256(binary[..]);
      users := users[userId := NewUser(name, imageFileHash, lineUserId, tokenHash, now)];
      r := Success(accessToken);
    }

    /** `updateAccessToken`: replace the user's stored hash by the hash of
        the fresh `newAccessToken`; every other field is kept. `update` fails
        when the document does not exist. */
    method UpdateAccessToken(userId: UserId, newAccessToken: AccessToken)
      returns (r: Result<AccessToken, Error>)
      modifies this
      ensures userId !in old(users) ==> r == Failure(NotFound(userId)) && users == old(users)
      ensures userId in old(users) ==> r == Success(newAccessToken)
      ensures userId in old(users) ==>
                users == old(users)[userId := old(users)[userId].(
                           lastIssuedAccessTokenHash := HashAccessToken(sha256, newAccessToken))]
      ensures userId in old(users) ==>
                var before, after := old(users)[userId], users[userId];
                after.name == before.name && after.lineUserId == before.lineUserId
                && after.imageFileHash == before.imageFileHash && after.createdAt == before.createdAt
                && after.role == before.role && after.teamId == before.teamId
      ensures logInStates == old(logInStates) && teams == old(teams)
    {
      if userId !in users {
        return Failure(NotFound(userId));
      }
      var binary := AccessTokenToTypedArray(newAccessToken);
      users := users[userId := users[userId].(lastIssuedAccessTokenHash := sha256(binary[..]))];
      r := Success(newAccessToken);
    }

    /** `setUserRoleAndTeamId`: set the user's role and team; every other
        field is kept. `update` fails when the document does not exist. */
    method SetUserRoleAndTeamId(userId: UserId, role: UserRole, teamId: TeamId)
      returns (r: Result<(), Error>)
      modifies this
      ensures userId !in old(users) ==> r == Failure(NotFound(userId)) && users == old(users)
      ensures userId in old(users) ==> r == Success(())
      ensures userId in old(users) ==>
                users == old(users)[userId := old(users)[userId].(role := Some(role), teamId := Some(teamId))]
      ensures userId in old(users) ==>
                var before, after := old(users)[userId], users[userId];
                after.name == before.name && after.lineUserId == before.lineUserId
                && after.imageFileHash == before.imageFileHash
                && after.lastIssuedAccessTokenHash == before.lastIssuedAccessTokenHash
                && after.createdAt == before.createdAt
      ensures logInStates == old(logInStates) && teams == old(teams)
    {
      if userId !in users {
        return Failure(NotFound(userId));
      }
      users := users[userId := users[userId].(role := Some(role), teamId := Some(teamId))];
      r := Success(());
    }
  }

  /** A login state can be redeemed once: issuing it and then redeeming it
      twice gives the path, then null. */
  method LogInStateIsSingleUse(store: Store, path: string, state: string, now: Timestamp)
    returns (first: Option<string>, second: Option<string>)
    requires state !in store.logInStates
    modifies store
    ensures first == Some(path)
    ensures second == None
    ensures store.logInStates == old(store.logInStates)
  {
    var issued := store.GenerateAndWriteLogInState(path, state, now);
    first := store.CheckExistsAndDeleteState(state);
    second := store.CheckExistsAndDeleteState(state);
    assert old(store.logInStates)[state := StateData(path, now)] - {state} == old(store.logInStates);
  }

  // ---------------------------------------------------------------------------
  // Reads after writes

  /** After `createUser`, the returned token finds the new user (as long as
      no other user holds the same hash), and the user has no role and no team. */
  lemma CreatedUserIsFoundByToken(users: map<UserId, UserData>, order: seq<UserId>,
                                  sha256: seq<byte> -> AccessTokenHash, userId: UserId,
                                  name: string, imageFileHash: FileHash, lineUserId: LineUserId,
                                  accessToken: AccessToken, now: Timestamp)
    requires userId !in users && userId in order && ListsAll(order, users)
    requires forall id :: id in users ==> users[id].lastIssuedAccessTokenHash != HashAccessToken(sha256, accessToken)
    ensures var d := NewUser(name, imageFileHash, lineUserId, HashAccessToken(sha256, accessToken), now);
      GetUserByAccessToken(users[userId := d], order, sha256, accessToken) == Success(UserLowCostOf(userId, d))
    ensures var d := NewUser(name, imageFileHash, lineUserId, HashAccessToken(sha256, accessToken), now);
      UserLowCostOf(userId, d).role == None && UserLowCostOf(userId, d).team == None
  {
    var h := HashAccessToken(sha256, accessToken);
    var d := NewUser(name, imageFileHash, lineUserId, h, now);
    var users' := users[userId := d];
    assert ListsAll(order, users');
    var k :| 0 <= k < |order| && order[k] == userId;
    assert order[k] in users' && users'[order[k]].lastIssuedAccessTokenHash == h;
  }

  /** After `updateAccessToken`, the new token finds the user (as long as no
      other user holds the same hash), and the previous token no longer finds
      that user unless the two tokens hash alike. */
  lemma UpdatedTokenReplacesOld(users: map<UserId, UserData>, order: seq<UserId>,
                                sha256: seq<byte> -> AccessTokenHash, userId: UserId,
                                oldToken: AccessToken, newToken: AccessToken)
    requires userId in users && ListsAll(order, users)
    requires forall id :: id in users && id != userId ==>
               users[id].lastIssuedAccessTokenHash != HashAccessToken(sha256, newToken)
    requires HashAccessToken(sha256, oldToken) != HashAccessToken(sha256, newToken)
    ensures var users' := users[userId := users[userId].(lastIssuedAccessTokenHash := HashAccessToken(sha256, newToken))];
      GetUserByAccessToken(users', order, sha256, newToken) == Success(UserLowCostOf(userId, users'[userId]))
    ensures var users' := users[userId := users[userId].(lastIssuedAccessTokenHash := HashAccessToken(sha256, newToken))];
      var r := GetUserByAccessToken(users', order, sha256, oldToken);
      r.Success? ==> r.value.id != userId
  {
    var h := HashAccessToken(sha256, newToken);
    var users' := users[userId := users[userId].(lastIssuedAccessTokenHash := h)];
    assert ListsAll(order, users');
    var k :| 0 <= k < |order| && order[k] == userId;
    assert order[k] in users' && users'[order[k]].lastIssuedAccessTokenHash == h;
  }
}
