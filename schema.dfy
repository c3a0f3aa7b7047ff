/** source/schema.ts: the GraphQL source objects and their field resolvers.
    A parent resolver hands over a stub that holds an `id` and perhaps some
    fields. A field resolver returns the field when the stub holds it;
    otherwise it runs `setCycle`, `setUserData` or `setTeam`, which fetch the
    record once and write it into the stub: the plain fields always, the
    relationship fields only where the stub did not hold them yet.
    Resolution is sequential; each fetch is a lookup in a map of records. */
module Schema {
  import opened Wrappers
  import opened Database

  type CycleId = string

  /** A field of a source object: `Undefined` is a field the object does
      not hold (JavaScript `undefined`, not `null`). */
  datatype Field<+T> = Undefined | Defined(value: T)

  datatype CycleRef = CycleRef(id: CycleId)

  /** A resolved field value, whatever its GraphQL type. */
  datatype Value =
    | Text(text: string)
    | Time(time: Timestamp)
    | RoleValue(role: Option<UserRole>)
    | TeamValue(team: Option<TeamRef>)
    | CycleListValue(cycles: seq<CycleRef>)
    | ManagerValue(manager: UserRef)
    | PlayerListValue(players: seq<UserRef>)

  /** What one resolver call produces: its result, the source object after
      it, and whether it fetched. */
  datatype Resolution<S> = Resolution(result: Result<Value, Error>, stub: S, fetched: bool)

  /** What resolving several fields one after another produces: the
      results in order, the source object after the last, and the number
      of fetches. */
  datatype Resolutions<S> = Resolutions(results: seq<Result<Value, Error>>, stub: S, fetches: nat)

  // ---------------------------------------------------------------------------
  // The FileHash scalar

  /** An input value of unknown type: a string or anything else. */
  datatype JsValue = JsString(s: string) | JsNonString

  /** `parseFileHash`: only the type is checked; the length and digit checks
      are disabled, so every string is accepted as it is. */
  function ParseFileHash(value: JsValue): (r: Result<FileHash, string>)
    ensures r.Success? <==> value.JsString?
    ensures r.Success? ==> r.value == value.s
    ensures r.Failure? ==> r.error == "Hash must be string"
  {
    match value
    case JsString(s) => Success(s)
    case JsNonString => Failure("Hash must be string")
  }

  /** The scalar's `serialize`. */
  function SerializeFileHash(hash: FileHash): string {
    hash
  }

  /** Parsing what was serialized gives the hash back, whatever its text. */
  lemma FileHashRoundTrip(hash: FileHash)
    ensures ParseFileHash(JsString(SerializeFileHash(hash))) == Success(hash)
  {
  }

  // ---------------------------------------------------------------------------
  // Cycle

  datatype CycleField = Plan | Do | Check | Act | CycleCreatedAt | UpdateAt

  /** The record `getCycleData` returns. */
  datatype CycleRecord = CycleRecord(
    plan: string, do: string, check: string, act: string,
    createdAt: Timestamp, updateAt: Timestamp)

  datatype CycleStub = CycleStub(
    id: CycleId,
    plan: Field<string>, do: Field<string>, check: Field<string>, act: Field<string>,
    createdAt: Field<Timestamp>, updateAt: Field<Timestamp>)

  function TextField(f: Field<string>): Field<Value> {
    match f
    case Undefined => Undefined
    case Defined(v) => Defined(Text(v))
  }

  function TimeField(f: Field<Timestamp>): Field<Value> {
    match f
    case Undefined => Undefined
    case Defined(v) => Defined(Time(v))
  }

  /** The field a resolver tests for `undefined`. */
  function CycleLookup(s: CycleStub, f: CycleField): Field<Value> {
    match f
    case Plan => TextField(s.plan)
    case Do => TextField(s.do)
    case Check => TextField(s.check)
    case Act => TextField(s.act)
    case CycleCreatedAt => TimeField(s.createdAt)
    case UpdateAt => TimeField(s.updateAt)
  }

  /** The field a resolver reads from the fetched record. */
  function CyclePick(d: CycleRecord, f: CycleField): Value {
    match f
    case Plan => Text(d.plan)
    case Do => Text(d.do)
    case Check => Text(d.check)
    case Act => Text(d.act)
    case CycleCreatedAt => Time(d.createdAt)
    case UpdateAt => Time(d.updateAt)
  }

  /** The stub after `setCycle`: all six fields overwritten. */
  function MergeCycle(s: CycleStub, d: CycleRecord): CycleStub {
    CycleStub(s.id, Defined(d.plan), Defined(d.do), Defined(d.check), Defined(d.act),
      Defined(d.createdAt), Defined(d.updateAt))
  }

  /** `setCycle` keeps the id and holds exactly the fetched record afterwards. */
  lemma MergeCycleOverwrites(s: CycleStub, d: CycleRecord)
    ensures MergeCycle(s, d).id == s.id
    ensures forall f :: CycleLookup(MergeCycle(s, d), f) == Defined(CyclePick(d, f))
  {
    forall f ensures CycleLookup(MergeCycle(s, d), f) == Defined(CyclePick(d, f)) {
      match f
      case Plan =>
      case Do =>
      case Check =>
      case Act =>
      case CycleCreatedAt =>
      case UpdateAt =>
    }
  }

  /** One `Cycle` field resolver. */
  function ResolveCycle(s: CycleStub, f: CycleField, cycles: map<CycleId, CycleRecord>): Resolution<CycleStub> {
    match CycleLookup(s, f)
    case Defined(v) => Resolution(Success(v), s, false)
    case Undefined =>
      if s.id in cycles then Resolution(Success(CyclePick(cycles[s.id], f)), MergeCycle(s, cycles[s.id]), true)
      else Resolution(Failure(NotFound(s.id)), s, true)
  }

  /** Resolving the fields `fs` one after another on one source object:
      the results, the final object and the number of fetches. */
  function ResolveCycleAll(s: CycleStub, fs: seq<CycleField>, cycles: map<CycleId, CycleRecord>)
    : Resolutions<CycleStub>
    decreases |fs|
  {
    if fs == [] then Resolutions([], s, 0)
    else
      var one := ResolveCycle(s, fs[0], cycles);
      var rest := ResolveCycleAll(one.stub, fs[1..], cycles);
      Resolutions([one.result] + rest.results, rest.stub, (if one.fetched then 1 else 0) + rest.fetches)
  }

  /** A field the object holds is returned as it is, with no fetch; a field
      it lacks is fetched and written back, so the object then holds the
      returned value. */
  lemma ResolveCycleSpec(s: CycleStub, f: CycleField, cycles: map<CycleId, CycleRecord>)
    ensures var r := ResolveCycle(s, f, cycles);
      CycleLookup(s, f).Defined? ==> r.result == Success(CycleLookup(s, f).value) && r.stub == s && !r.fetched
    ensures var r := ResolveCycle(s, f, cycles);
      CycleLookup(s, f).Undefined? ==> r.fetched && r.stub.id == s.id
    ensures var r := ResolveCycle(s, f, cycles);
      CycleLookup(s, f).Undefined? && s.id !in cycles ==> r.result == Failure(NotFound(s.id)) && r.stub == s
    ensures var r := ResolveCycle(s, f, cycles);
      CycleLookup(s, f).Undefined? && s.id in cycles ==> r.result == Success(CyclePick(cycles[s.id], f))
    ensures var r := ResolveCycle(s, f, cycles);
      r.result.Success? ==> CycleLookup(r.stub, f) == Defined(r.result.value)
  {
    MergeCycleOverwrites(s, if s.id in cycles then cycles[s.id] else CycleRecord("", "", "", "", 0, 0));
  }

  /** Fields the object already holds never cause a fetch. */
  lemma {:induction false} ResolveCycleAllHeld(s: CycleStub, fs: seq<CycleField>, cycles: map<CycleId, CycleRecord>)
    requires forall i :: 0 <= i < |fs| ==> CycleLookup(s, fs[i]).Defined?
    ensures ResolveCycleAll(s, fs, cycles).stub == s
    ensures ResolveCycleAll(s, fs, cycles).fetches == 0
    decreases |fs|
  {
    if fs != [] {
      assert CycleLookup(s, fs[0]).Defined?;
      ResolveCycleAllHeld(s, fs[1..], cycles);
    }
  }

  /** Sequential resolution of any fields fetches at most once: after the
      first fetch the object holds every field. */
  lemma {:induction false} ResolveCycleAllFetchesOnce(s: CycleStub, fs: seq<CycleField>, cycles: map<CycleId, CycleRecord>)
    requires s.id in cycles
    ensures ResolveCycleAll(s, fs, cycles).fetches <= 1
    decreases |fs|
  {
    if fs != [] {
      var one := ResolveCycle(s, fs[0], cycles);
      ResolveCycleSpec(s, fs[0], cycles);
      if one.fetched {
        MergeCycleOverwrites(s, cycles[s.id]);
        ResolveCycleAllHeld(one.stub, fs[1..], cycles);
      } else {
        ResolveCycleAllFetchesOnce(one.stub, fs[1..], cycles);
      }
    }
  }

  /** A `Cycle` source object, updated in place by its resolvers. */
  class CycleSource {
    const id: CycleId
    var plan: Field<string>
    var do: Field<string>
    var check: Field<string>
    var act: Field<string>
    var createdAt: Field<Timestamp>
    var updateAt: Field<Timestamp>
    /** The number of fetches made for this object so far. */
    ghost var fetches: nat

    function Snapshot(): CycleStub
      reads this
    {
      CycleStub(id, plan, do, check, act, createdAt, updateAt)
    }

    constructor (stub: CycleStub)
      ensures Snapshot() == stub && fetches == 0
    {
      id := stub.id;
      plan, do, check, act := stub.plan, stub.do, stub.check, stub.act;
      createdAt, updateAt := stub.createdAt, stub.updateAt;
      fetches := 0;
    }

    /** `setCycle`: fetch the record and overwrite all six fields; a failed
        fetch leaves the object as it was. */
    method SetCycle(cycles: map<CycleId, CycleRecord>) returns (r: Result<CycleRecord, Error>)
      modifies this
      ensures fetches == old(fetches) + 1
      ensures id !in cycles ==> r == Failure(NotFound(id)) && Snapshot() == old(Snapshot())
      ensures id in cycles ==> r == Success(cycles[id]) && Snapshot() == MergeCycle(old(Snapshot()), cycles[id])
    {
      fetches := fetches + 1;
      if id !in cycles {
        return Failure(NotFound(id));
      }
      var data := cycles[id];
      plan := Defined(data.plan);
      do := Defined(data.do);
      check := Defined(data.check);
      act := Defined(data.act);
      createdAt := Defined(data.createdAt);
      updateAt := Defined(data.updateAt);
      r := Success(data);
    }

    /** The resolver of field `f`. */
    method Resolve(f: CycleField, cycles: map<CycleId, CycleRecord>) returns (r: Result<Value, Error>)
      modifies this
      ensures var spec := ResolveCycle(old(Snapshot()), f, cycles);
        r == spec.result && Snapshot() == spec.stub
        && fetches == old(fetches) + (if spec.fetched then 1 else 0)
    {
      var current := CycleLookup(Snapshot(), f);
      if current.Defined? {
        return Success(current.value);
      }
      var data := SetCycle(cycles);
      match data
      case Failure(e) => r := Failure(e);
      case Success(d) => r := Success(CyclePick(d, f));
    }
  }

  // ---------------------------------------------------------------------------
  // UserData

  datatype UserField = UserName | ImageFileHash | Role | UserGoal | UserCreatedAt | Team | CycleList

  /** The record `getUserData` returns to the schema. */
  datatype UserRecord = UserRecord(
    name: string, imageFileHash: FileHash, goal: string, role: Option<UserRole>,
    createdAt: Timestamp, team: Option<TeamRef>, cycleList: seq<CycleRef>)

  datatype UserStub = UserStub(
    id: UserId,
    name: Field<string>, imageFileHash: Field<FileHash>, goal: Field<string>,
    role: Field<Option<UserRole>>, createdAt: Field<Timestamp>,
    team: Field<Option<TeamRef>>, cycleList: Field<seq<CycleRef>>)

  function UserLookup(s: UserStub, f: UserField): Field<Value> {
    match f
    case UserName => TextField(s.name)
    case ImageFileHash => TextField(s.imageFileHash)
    case UserGoal => TextField(s.goal)
    case Role => (match s.role case Undefined => Undefined case Defined(v) => Defined(RoleValue(v)))
    case UserCreatedAt => TimeField(s.createdAt)
    case Team => (match s.team case Undefined => Undefined case Defined(v) => Defined(TeamValue(v)))
    case CycleList => (match s.cycleList case Undefined => Undefined case Defined(v) => Defined(CycleListValue(v)))
  }

  function UserPick(d: UserRecord, f: UserField): Value {
    match f
    case UserName => Text(d.name)
    case ImageFileHash => Text(d.imageFileHash)
    case UserGoal => Text(d.goal)
    case Role => RoleValue(d.role)
    case UserCreatedAt => Time(d.createdAt)
    case Team => TeamValue(d.team)
    case CycleList => CycleListValue(d.cycleList)
  }

  predicate IsUserRelation(f: UserField) {
    f == Team || f == CycleList
  }

  /** The stub after `setUserData`: the five plain fields overwritten, `team`
      and `cycleList` filled only where undefined. */
  function MergeUser(s: UserStub, d: UserRecord): UserStub {
    UserStub(s.id, Defined(d.name), Defined(d.imageFileHash), Defined(d.goal), Defined(d.role),
      Defined(d.createdAt),
      if s.team.Undefined? then Defined(d.team) else s.team,
      if s.cycleList.Undefined? then Defined(d.cycleList) else s.cycleList)
  }

  /** `setUserData` keeps the id, overwrites every plain field, keeps a
      relationship field the stub held (first write wins) and fills it from
      the record otherwise; afterwards every field is defined. */
  lemma MergeUserFields(s: UserStub, d: UserRecord)
    ensures MergeUser(s, d).id == s.id
    ensures forall f :: !IsUserRelation(f) ==> UserLookup(MergeUser(s, d), f) == Defined(UserPick(d, f))
    ensures forall f :: IsUserRelation(f) && UserLookup(s, f).Defined? ==> UserLookup(MergeUser(s, d), f) == UserLookup(s, f)
    ensures forall f :: IsUserRelation(f) && UserLookup(s, f).Undefined? ==> UserLookup(MergeUser(s, d), f) == Defined(UserPick(d, f))
    ensures forall f :: UserLookup(MergeUser(s, d), f).Defined?
  {
    forall f
      ensures !IsUserRelation(f) ==> UserLookup(MergeUser(s, d), f) == Defined(UserPick(d, f))
      ensures IsUserRelation(f) && UserLookup(s, f).Defined? ==> UserLookup(MergeUser(s, d), f) == UserLookup(s, f)
      ensures IsUserRelation(f) && UserLookup(s, f).Undefined? ==> UserLookup(MergeUser(s, d), f) == Defined(UserPick(d, f))
    {
      match f
      case UserName =>
      case ImageFileHash =>
      case UserGoal =>
      case Role =>
      case UserCreatedAt =>
      case Team =>
      case CycleList =>
    }
  }

  /** Merging the same record twice is merging it once. */
  lemma MergeUserIdempotent(s: UserStub, d: UserRecord)
    ensures MergeUser(MergeUser(s, d), d) == MergeUser(s, d)
  {
  }

  function ResolveUser(s: UserStub, f: UserField, users: map<UserId, UserRecord>): Resolution<UserStub> {
    match UserLookup(s, f)
    case Defined(v) => Resolution(Success(v), s, false)
    case Undefined =>
      if s.id in users then Resolution(Success(UserPick(users[s.id], f)), MergeUser(s, users[s.id]), true)
      else Resolution(Failure(NotFound(s.id)), s, true)
  }

  function ResolveUserAll(s: UserStub, fs: seq<UserField>, users: map<UserId, UserRecord>)
    : Resolutions<UserStub>
    decreases |fs|
  {
    if fs == [] then Resolutions([], s, 0)
    else
      var one := ResolveUser(s, fs[0], users);
      var rest := ResolveUserAll(one.stub, fs[1..], users);
      Resolutions([one.result] + rest.results, rest.stub, (if one.fetched then 1 else 0) + rest.fetches)
  }

  /** A held field is returned with no fetch; a missing field is fetched,
      the fetched value is returned, and the object then holds it. */
  lemma ResolveUserSpec(s: UserStub, f: UserField, users: map<UserId, UserRecord>)
    ensures var r := ResolveUser(s, f, users);
      UserLookup(s, f).Defined? ==> r.result == Success(UserLookup(s, f).value) && r.stub == s && !r.fetched
    ensures var r := ResolveUser(s, f, users);
      UserLookup(s, f).Undefined? ==> r.fetched && r.stub.id == s.id
    ensures var r := ResolveUser(s, f, users);
      UserLookup(s, f).Undefined? && s.id !in users ==> r.result == Failure(NotFound(s.id)) && r.stub == s
    ensures var r := ResolveUser(s, f, users);
      UserLookup(s, f).Undefined? && s.id in users ==> r.result == Success(UserPick(users[s.id], f))
    ensures var r := ResolveUser(s, f, users);
      r.result.Success? ==> UserLookup(r.stub, f) == Defined(r.result.value)
  {
    MergeUserFields(s, if s.id in users then users[s.id] else UserRecord("", "", "", None, 0, None, []));
  }

  lemma {:induction false} ResolveUserAllHeld(s: UserStub, fs: seq<UserField>, users: map<UserId, UserRecord>)
    requires forall i :: 0 <= i < |fs| ==> UserLookup(s, fs[i]).Defined?
    ensures ResolveUserAll(s, fs, users).stub == s
    ensures ResolveUserAll(s, fs, users).fetches == 0
    decreases |fs|
  {
    if fs != [] {
      assert UserLookup(s, fs[0]).Defined?;
      ResolveUserAllHeld(s, fs[1..], users);
    }
  }

  /** Sequential resolution of any `UserData` fields fetches at most once. */
  lemma {:induction false} ResolveUserAllFetchesOnce(s: UserStub, fs: seq<UserField>, users: map<UserId, UserRecord>)
    requires s.id in users
    ensures ResolveUserAll(s, fs, users).fetches <= 1
    decreases |fs|
  {
    if fs != [] {
      var one := ResolveUser(s, fs[0], users);
      ResolveUserSpec(s, fs[0], users);
      if one.fetched {
        MergeUserFields(s, users[s.id]);
        ResolveUserAllHeld(one.stub, fs[1..], users);
      } else {
        ResolveUserAllFetchesOnce(one.stub, fs[1..], users);
      }
    }
  }

  /** A `team` or `cycleList` the parent supplied survives any sequence of
      resolutions on the object. */
  lemma {:induction false} ResolveUserAllKeepsRelation(s: UserStub, fs: seq<UserField>, users: map<UserId, UserRecord>, f: UserField)
    requires IsUserRelation(f) && UserLookup(s, f).Defined?
    ensures UserLookup(ResolveUserAll(s, fs, users).stub, f) == UserLookup(s, f)
    decreases |fs|
  {
    if fs != [] {
      var one := ResolveUser(s, fs[0], users);
      ResolveUserSpec(s, fs[0], users);
      if one.fetched {
        MergeUserFields(s, if s.id in users then users[s.id] else UserRecord("", "", "", None, 0, None, []));
      }
      assert UserLookup(one.stub, f) == UserLookup(s, f);
      ResolveUserAllKeepsRelation(one.stub, fs[1..], users, f);
    }
  }

  /** A `UserData` source object, updated in place by its resolvers. */
  class UserSource {
    const id: UserId
    var name: Field<string>
    var imageFileHash: Field<FileHash>
    var goal: Field<string>
    var role: Field<Option<UserRole>>
    var createdAt: Field<Timestamp>
    var team: Field<Option<TeamRef>>
    var cycleList: Field<seq<CycleRef>>
    ghost var fetches: nat

    function Snapshot(): UserStub
      reads this
    {
      UserStub(id, name, imageFileHash, goal, role, createdAt, team, cycleList)
    }

    constructor (stub: UserStub)
      ensures Snapshot() == stub && fetches == 0
    {
      id := stub.id;
      name, imageFileHash, goal, role := stub.name, stub.imageFileHash, stub.goal, stub.role;
      createdAt, team, cycleList := stub.createdAt, stub.team, stub.cycleList;
      fetches := 0;
    }

    /** `setUserData`: fetch the record, overwrite the plain fields, fill
        `team` and `cycleList` only where undefined. */
    method SetUserData(users: map<UserId, UserRecord>) returns (r: Result<UserRecord, Error>)
      modifies this
      ensures fetches == old(fetches) + 1
      ensures id !in users ==> r == Failure(NotFound(id)) && Snapshot() == old(Snapshot())
      ensures id in users ==> r == Success(users[id]) && Snapshot() == MergeUser(old(Snapshot()), users[id])
    {
      fetches := fetches + 1;
      if id !in users {
        return Failure(NotFound(id));
      }
      var data := users[id];
      name := Defined(data.name);
      imageFileHash := Defined(data.imageFileHash);
      goal := Defined(data.goal);
      role := Defined(data.role);
      createdAt := Defined(data.createdAt);
      if team.Undefined? {
        team := Defined(data.team);
      }
      if cycleList.Undefined? {
        cycleList := Defined(data.cycleList);
      }
      r := Success(data);
    }

    method Resolve(f: UserField, users: map<UserId, UserRecord>) returns (r: Result<Value, Error>)
      modifies this
      ensures var spec := ResolveUser(old(Snapshot()), f, users);
        r == spec.result && Snapshot() == spec.stub
        && fetches == old(fetches) + (if spec.fetched then 1 else 0)
    {
      var current := UserLookup(Snapshot(), f);
      if current.Defined? {
        return Success(current.value);
      }
      var data := SetUserData(users);
      match data
      case Failure(e) => r := Failure(e);
      case Success(d) => r := Success(UserPick(d, f));
    }
  }

  // ---------------------------------------------------------------------------
  // Team

  datatype TeamField = TeamName | TeamGoal | Information | TeamCreatedAt | TeamManager | PlayerList

  /** The record `getTeamData` returns to the schema. */
  datatype TeamRecord = TeamRecord(
    name: string, goal: string, information: string, createdAt: Timestamp,
    manager: UserRef, playerList: seq<UserRef>)

  datatype TeamStub = TeamStub(
    id: TeamId,
    name: Field<string>, goal: Field<string>, information: Field<string>, createdAt: Field<Timestamp>,
    manager: Field<UserRef>, playerList: Field<seq<UserRef>>)

  function TeamLookup(s: TeamStub, f: TeamField): Field<Value> {
    match f
    case TeamName => TextField(s.name)
    case TeamGoal => TextField(s.goal)
    case Information => TextField(s.information)
    case TeamCreatedAt => TimeField(s.createdAt)
    case TeamManager => (match s.manager case Undefined => Undefined case Defined(v) => Defined(ManagerValue(v)))
    case PlayerList => (match s.playerList case Undefined => Undefined case Defined(v) => Defined(PlayerListValue(v)))
  }

  function TeamPick(d: TeamRecord, f: TeamField): Value {
    match f
    case TeamName => Text(d.name)
    case TeamGoal => Text(d.goal)
    case Information => Text(d.information)
    case TeamCreatedAt => Time(d.createdAt)
    case TeamManager => ManagerValue(d.manager)
    case PlayerList => PlayerListValue(d.playerList)
  }

  predicate IsTeamRelation(f: TeamField) {
    f == TeamManager || f == PlayerList
  }

  /** The stub after `setTeam`: the four plain fields overwritten, `manager`
      and `playerList` filled only where undefined. */
  function MergeTeam(s: TeamStub, d: TeamRecord): TeamStub {
    TeamStub(s.id, Defined(d.name), Defined(d.goal), Defined(d.information), Defined(d.createdAt),
      if s.manager.Undefined? then Defined(d.manager) else s.manager,
      if s.playerList.Undefined? then Defined(d.playerList) else s.playerList)
  }

  lemma MergeTeamFields(s: TeamStub, d: TeamRecord)
    ensures MergeTeam(s, d).id == s.id
    ensures forall f :: !IsTeamRelation(f) ==> TeamLookup(MergeTeam(s, d), f) == Defined(TeamPick(d, f))
    ensures forall f :: IsTeamRelation(f) && TeamLookup(s, f).Defined? ==> TeamLookup(MergeTeam(s, d), f) == TeamLookup(s, f)
    ensures forall f :: IsTeamRelation(f) && TeamLookup(s, f).Undefined? ==> TeamLookup(MergeTeam(s, d), f) == Defined(TeamPick(d, f))
    ensures forall f :: TeamLookup(MergeTeam(s, d), f).Defined?
  {
    forall f
      ensures !IsTeamRelation(f) ==> TeamLookup(MergeTeam(s, d), f) == Defined(TeamPick(d, f))
      ensures IsTeamRelation(f) && TeamLookup(s, f).Defined? ==> TeamLookup(MergeTeam(s, d), f) == TeamLookup(s, f)
      ensures IsTeamRelation(f) && TeamLookup(s, f).Undefined? ==> TeamLookup(MergeTeam(s, d), f) == Defined(TeamPick(d, f))
    {
      match f
      case TeamName =>
      case TeamGoal =>
      case Information =>
      case TeamCreatedAt =>
      case TeamManager =>
      case PlayerList =>
    }
  }

  lemma MergeTeamIdempotent(s: TeamStub, d: TeamRecord)
    ensures MergeTeam(MergeTeam(s, d), d) == MergeTeam(s, d)
  {
  }

  function ResolveTeam(s: TeamStub, f: TeamField, teams: map<TeamId, TeamRecord>): Resolution<TeamStub> {
    match TeamLookup(s, f)
    case Defined(v) => Resolution(Success(v), s, false)
    case Undefined =>
      if s.id in teams then Resolution(Success(TeamPick(teams[s.id], f)), MergeTeam(s, teams[s.id]), true)
      else Resolution(Failure(NotFound(s.id)), s, true)
  }

  function ResolveTeamAll(s: TeamStub, fs: seq<TeamField>, teams: map<TeamId, TeamRecord>)
    : Resolutions<TeamStub>
    decreases |fs|
  {
    if fs == [] then Resolutions([], s, 0)
    else
      var one := ResolveTeam(s, fs[0], teams);
      var rest := ResolveTeamAll(one.stub, fs[1..], teams);
      Resolutions([one.result] + rest.results, rest.stub, (if one.fetched then 1 else 0) + rest.fetches)
  }

  lemma ResolveTeamSpec(s: TeamStub, f: TeamField, teams: map<TeamId, TeamRecord>)
    ensures var r := ResolveTeam(s, f, teams);
      TeamLookup(s, f).Defined? ==> r.result == Success(TeamLookup(s, f).value) && r.stub == s && !r.fetched
    ensures var r := ResolveTeam(s, f, teams);
      TeamLookup(s, f).Undefined? ==> r.fetched && r.stub.id == s.id
    ensures var r := ResolveTeam(s, f, teams);
      TeamLookup(s, f).Undefined? && s.id !in teams ==> r.result == Failure(NotFound(s.id)) && r.stub == s
    ensures var r := ResolveTeam(s, f, teams);
      TeamLookup(s, f).Undefined? && s.id in teams ==> r.result == Success(TeamPick(teams[s.id], f))
    ensures var r := ResolveTeam(s, f, teams);
      r.result.Success? ==> TeamLookup(r.stub, f) == Defined(r.result.value)
  {
    MergeTeamFields(s, if s.id in teams then teams[s.id] else TeamRecord("", "", "", 0, UserRef(""), []));
  }

  lemma {:induction false} ResolveTeamAllHeld(s: TeamStub, fs: seq<TeamField>, teams: map<TeamId, TeamRecord>)
    requires forall i :: 0 <= i < |fs| ==> TeamLookup(s, fs[i]).Defined?
    ensures ResolveTeamAll(s, fs, teams).stub == s
    ensures ResolveTeamAll(s, fs, teams).fetches == 0
    decreases |fs|
  {
    if fs != [] {
      assert TeamLookup(s, fs[0]).Defined?;
      ResolveTeamAllHeld(s, fs[1..], teams);
    }
  }

  /** Sequential resolution of any `Team` fields fetches at most once. */
  lemma {:induction false} ResolveTeamAllFetchesOnce(s: TeamStub, fs: seq<TeamField>, teams: map<TeamId, TeamRecord>)
    requires s.id in teams
    ensures ResolveTeamAll(s, fs, teams).fetches <= 1
    decreases |fs|
  {
    if fs != [] {
      var one := ResolveTeam(s, fs[0], teams);
      ResolveTeamSpec(s, fs[0], teams);
      if one.fetched {
        MergeTeamFields(s, teams[s.id]);
        ResolveTeamAllHeld(one.stub, fs[1..], teams);
      } else {
        ResolveTeamAllFetchesOnce(one.stub, fs[1..], teams);
      }
    }
  }

  /** A `manager` or `playerList` the parent supplied survives any sequence
      of resolutions on the object. */
  lemma {:induction false} ResolveTeamAllKeepsRelation(s: TeamStub, fs: seq<TeamField>, teams: map<TeamId, TeamRecord>, f: TeamField)
    requires IsTeamRelation(f) && TeamLookup(s, f).Defined?
    ensures TeamLookup(ResolveTeamAll(s, fs, teams).stub, f) == TeamLookup(s, f)
    decreases |fs|
  {
    if fs != [] {
      var one := ResolveTeam(s, fs[0], teams);
      ResolveTeamSpec(s, fs[0], teams);
      if one.fetched {
        MergeTeamFields(s, if s.id in teams then teams[s.id] else TeamRecord("", "", "", 0, UserRef(""), []));
      }
      assert TeamLookup(one.stub, f) == TeamLookup(s, f);
      ResolveTeamAllKeepsRelation(one.stub, fs[1..], teams, f);
    }
  }

  /** A `Team` source object, updated in place by its resolvers. */
  class TeamSource {
    const id: TeamId
    var name: Field<string>
    var goal: Field<string>
    var information: Field<string>
    var createdAt: Field<Timestamp>
    var manager: Field<UserRef>
    var playerList: Field<seq<UserRef>>
    ghost var fetches: nat

    function Snapshot(): TeamStub
      reads this
    {
      TeamStub(id, name, goal, information, createdAt, manager, playerList)
    }

    constructor (stub: TeamStub)
      ensures Snapshot() == stub && fetches == 0
    {
      id := stub.id;
      name, goal, information, createdAt := stub.name, stub.goal, stub.information, stub.createdAt;
      manager, playerList := stub.manager, stub.playerList;
      fetches := 0;
    }

    /** `setTeam`: fetch the record, overwrite the plain fields, fill
        `manager` and `playerList` only where undefined. */
    method SetTeam(teams: map<TeamId, TeamRecord>) returns (r: Result<TeamRecord, Error>)
      modifies this
      ensures fetches == old(fetches) + 1
      ensures id !in teams ==> r == Failure(NotFound(id)) && Snapshot() == old(Snapshot())
      ensures id in teams ==> r == Success(teams[id]) && Snapshot() == MergeTeam(old(Snapshot()), teams[id])
    {
      fetches := fetches + 1;
      if id !in teams {
        return Failure(NotFound(id));
      }
      var data := teams[id];
      name := Defined(data.name);
      goal := Defined(data.goal);
      information := Defined(data.information);
      createdAt := Defined(data.createdAt);
      if manager.Undefined? {
        manager := Defined(data.manager);
      }
      if playerList.Undefined? {
        playerList := Defined(data.playerList);
      }
      r := Success(data);
    }

    method Resolve(f: TeamField, teams: map<TeamId, TeamRecord>) returns (r: Result<Value, Error>)
      modifies this
      ensures var spec := ResolveTeam(old(Snapshot()), f, teams);
        r == spec.result && Snapshot() == spec.stub
        && fetches == old(fetches) + (if spec.fetched then 1 else 0)
    {
      var current := TeamLookup(Snapshot(), f);
      if current.Defined? {
        return Success(current.value);
      }
      var data := SetTeam(teams);
      match data
      case Failure(e) => r := Failure(e);
      case Success(d) => r := Success(TeamPick(d, f));
    }
  }
}
