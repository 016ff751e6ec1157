/**
 * Organisations, their members, and the invites and codes people join by (internal/org). A join is several
 * separate database accesses, so joins can overlap.
 */
module OrgMembership {
  import opened Prelude

  datatype Role = Owner | Admin | Developer | Viewer

  predicate IsAdmin(role: Role) {
    role.Owner? || role.Admin?
  }

  /** How a member came in; a history. */
  datatype Via = Founder | ByInvite(token: string) | ByCode(code: string)

  /**
   * `joinedAt` is when the row was added, and `order` its position among all members, which tells apart rows added
   * in the same millisecond. `via` and `readAt`, the time at which the join read its invite or code, are histories.
   */
  datatype Member = Member(role: Role, order: nat, via: Via, readAt: nat, joinedAt: nat)

  /** An invite row, found by its unique token hash. Nothing compares `email` with who joins. */
  datatype Invite =
    Invite(orgId: string, invitedBy: string, email: string, role: Role, sentAt: nat, expiresAt: nat, accepted: bool)

  datatype Code = Code(orgId: string, createdBy: string, role: Role, active: bool)

  /** The cached copy of an invite's organisation and role. */
  datatype Payload = Payload(orgId: string, role: Role, expires: nat)

  datatype Stage = Checking | Adding | Marking

  /** A join under way, with what it read from the invite or code and when. */
  datatype Join = Join(userId: string, orgId: string, role: Role, via: Via, readAt: nat, stage: Stage)

  type Place = (string, string)

  /** `asked` holds the requests for an invite or code whose role check has passed, by organisation and member. */
  datatype State = State(now: nat, orgs: map<string, string>, members: map<Place, Member>,
                         invites: map<string, Invite>, codes: map<string, Code>, cache: map<string, Payload>,
                         joins: map<nat, Join>, asked: map<nat, Place>, order: nat)

  datatype Failure =
    | InvalidOrgName | InvalidEmail | InvalidInviteRole | NotOrgMember | InsufficientPermissions
    | InviteNotFound | InviteAlreadyAccepted | InviteExpired | AlreadyOrgMember
    | InviteCodeNotFound | InviteCodeInactive | StoreError

  /** 24 hours in milliseconds. */
  const INVITE_TTL: nat := 86_400_000

  const Init := State(0, map[], map[], map[], map[], map[], map[], map[], 0)

  /** `CreateOrg`: the organisation and its owner in one transaction. */
  function CreateOrg(s: State, orgId: string, userId: string, name: string): (State, Result<Role, Failure>) {
    if name == "" then (s, Err(InvalidOrgName))
    else (s.(orgs := s.orgs[orgId := userId],
             members := s.members[(orgId, userId) := Member(Owner, s.order, Founder, s.now, s.now)],
             order := s.order + 1), Ok(Owner))
  }

  /** The permission check shared by invites and codes. */
  function MayInvite(s: State, orgId: string, userId: string): Option<Failure> {
    if (orgId, userId) !in s.members then Some(NotOrgMember)
    else if !IsAdmin(s.members[(orgId, userId)].role) then Some(InsufficientPermissions)
    else None
  }

  /** `CreateInviteToken`; the token is a new UUID, and failing to cache it does not matter. */
  function InsertInvite(s: State, orgId: string, inviter: string, email: string, role: Role, token: string,
                        cacheOk: bool)
    : State
  {
    s.(invites := s.invites[token := Invite(orgId, inviter, email, role, s.now, s.now + INVITE_TTL, false)],
       cache := if cacheOk then s.cache[token := Payload(orgId, role, s.now + INVITE_TTL)] else s.cache)
  }

  /** Whether the role look-up, the insert and the caching of an invite or code succeed. */
  datatype IssueFate = IssueFate(roleOk: bool, storeOk: bool, cacheOk: bool)

  function SendInvite(s: State, orgId: string, inviter: string, email: string, emailOk: bool, role: Role, token: string,
                      f: IssueFate)
    : (State, Result<string, Failure>)
  {
    if !emailOk then (s, Err(InvalidEmail))
    else if role.Owner? then (s, Err(InvalidInviteRole))
    else if !f.roleOk then (s, Err(StoreError))
    else if MayInvite(s, orgId, inviter).Some? then (s, Err(MayInvite(s, orgId, inviter).value))
    else if !f.storeOk then (s, Err(StoreError))
    else (InsertInvite(s, orgId, inviter, email, role, token, f.cacheOk), Ok(token))
  }

  /** `CreateInviteCode`, unique by code. */
  function InsertCode(s: State, orgId: string, inviter: string, code: string): (State, Result<string, Failure>) {
    if code in s.codes then (s, Err(StoreError))
    else (s.(codes := s.codes[code := Code(orgId, inviter, Developer, true)]), Ok(code))
  }

  function GenerateCode(s: State, orgId: string, inviter: string, code: string, f: IssueFate)
    : (State, Result<string, Failure>)
  {
    if !f.roleOk then (s, Err(StoreError))
    else if MayInvite(s, orgId, inviter).Some? then (s, Err(MayInvite(s, orgId, inviter).value))
    else if !f.storeOk then (s, Err(StoreError))
    else InsertCode(s, orgId, inviter, code)
  }

  /** The reads of `JoinViaToken`: organisation and role from the cache if it has them, the rest from the row. */
  function ReadInvite(s: State, userId: string, token: string, cacheOk: bool): Result<Join, Failure> {
    if token == "" || token !in s.invites then Err(InviteNotFound)
    else
      var invite := s.invites[token];
      var hit := cacheOk && token in s.cache && s.now < s.cache[token].expires;
      if invite.accepted then Err(InviteAlreadyAccepted)
      else if s.now > invite.expiresAt then Err(InviteExpired)
      else if hit then Ok(Join(userId, s.cache[token].orgId, s.cache[token].role, ByInvite(token), s.now, Checking))
      else Ok(Join(userId, invite.orgId, invite.role, ByInvite(token), s.now, Checking))
  }

  function ReadCode(s: State, userId: string, code: string): Result<Join, Failure> {
    if code == "" || code !in s.codes then Err(InviteCodeNotFound)
    else if !s.codes[code].active then Err(InviteCodeInactive)
    else Ok(Join(userId, s.codes[code].orgId, s.codes[code].role, ByCode(code), s.now, Checking))
  }

  /** `AddOrgMember`: the primary key refuses a second row for the same place. */
  function AddMember(s: State, j: Join): (State, Result<Role, Failure>) {
    if (j.orgId, j.userId) in s.members then (s, Err(AlreadyOrgMember))
    else (s.(members := s.members[(j.orgId, j.userId) := Member(j.role, s.order, j.via, j.readAt, s.now)],
             order := s.order + 1), Ok(j.role))
  }

  /** `MarkInviteAccepted`, whose complaint about an already accepted invite is dropped, and the cache delete. */
  function MarkAccepted(s: State, token: string, cacheOk: bool): State {
    s.(invites := if token in s.invites then s.invites[token := s.invites[token].(accepted := true)] else s.invites,
       cache := if cacheOk then s.cache - {token} else s.cache)
  }

  datatype Action =
    | NewOrg(orgId: string, userId: string, name: string)
    | Ask(op: nat, orgId: string, inviter: string)
    | NewInvite(op: nat, email: string, role: Role, token: string, cacheOk: bool)
    | NewCode(op: nat, code: string)
    | Forget(op: nat)
    | StartToken(op: nat, userId: string, token: string, cacheOk: bool)
    | StartCode(op: nat, userId: string, code: string)
    | CheckMember(op: nat)
    | Add(op: nat)
    | Mark(op: nat, cacheOk: bool)
    | Abandon(op: nat)
    | Tick(dt: nat)

  /**
   * What a deployment rules out: with `turns`, joins by one token do not overlap; with `finishes`, no join is cut
   * off between adding the member and marking the invite; with `longest`, no join takes longer than that after it
   * has read its invite or code. The code rules out none of them.
   */
  datatype Rules = Rules(turns: bool, finishes: bool, longest: Option<nat>)

  predicate Allowed(rules: Rules, s: State, a: Action) {
    match a
    case StartToken(_, _, token, _) => rules.turns ==> forall op :: op in s.joins ==> s.joins[op].via != ByInvite(token)
    case Abandon(op) => rules.finishes ==> op in s.joins ==> !s.joins[op].stage.Marking?
    case Tick(dt) =>
      rules.longest.Some? ==> forall op :: op in s.joins ==> s.now + dt <= s.joins[op].readAt + rules.longest.value
    case _ => true
  }

  function Step(s: State, a: Action): State {
    match a
    case NewOrg(orgId, userId, name) => if orgId in s.orgs then s else CreateOrg(s, orgId, userId, name).0
    case Ask(op, orgId, inviter) =>
      if op in s.asked || MayInvite(s, orgId, inviter).Some? then s else s.(asked := s.asked[op := (orgId, inviter)])
    case NewInvite(op, email, role, token, cacheOk) =>
      if op !in s.asked || role.Owner? || token == "" || token in s.invites then s
      else InsertInvite(s, s.asked[op].0, s.asked[op].1, email, role, token, cacheOk).(asked := s.asked - {op})
    case NewCode(op, code) =>
      if op !in s.asked then s else InsertCode(s, s.asked[op].0, s.asked[op].1, code).0.(asked := s.asked - {op})
    case Forget(op) => s.(asked := s.asked - {op})
    case StartToken(op, userId, token, cacheOk) =>
      var read := ReadInvite(s, userId, token, cacheOk);
      if op !in s.joins && read.Ok? then s.(joins := s.joins[op := read.value]) else s
    case StartCode(op, userId, code) =>
      var read := ReadCode(s, userId, code);
      if op !in s.joins && read.Ok? then s.(joins := s.joins[op := read.value]) else s
    case CheckMember(op) =>
      if op !in s.joins || !s.joins[op].stage.Checking? then s
      else if (s.joins[op].orgId, s.joins[op].userId) in s.members then s.(joins := s.joins - {op})
      else s.(joins := s.joins[op := s.joins[op].(stage := Adding)])
    case Add(op) =>
      if op !in s.joins || !s.joins[op].stage.Adding? then s
      else
        var (s', added) := AddMember(s, s.joins[op]);
        if added.Ok? && s.joins[op].via.ByInvite? then s'.(joins := s.joins[op := s.joins[op].(stage := Marking)])
        else s'.(joins := s.joins - {op})
    case Mark(op, cacheOk) =>
      if op !in s.joins || !s.joins[op].stage.Marking? || !s.joins[op].via.ByInvite? then s
      else MarkAccepted(s, s.joins[op].via.token, cacheOk).(joins := s.joins - {op})
    case Abandon(op) => s.(joins := s.joins - {op})
    case Tick(dt) => s.(now := s.now + dt)
  }

  function Next(rules: Rules, s: State, a: Action): State {
    if Allowed(rules, s, a) then Step(s, a) else s
  }

  function Run(rules: Rules, run: seq<Action>): State {
    if run == [] then Init else Next(rules, Run(rules, run[..|run| - 1]), run[|run| - 1])
  }

  /** Who let a member in: the issuer of the invite or code. */
  function Sponsor(s: State, via: Via): Option<string> {
    match via
    case Founder => None
    case ByInvite(token) => if token in s.invites then Some(s.invites[token].invitedBy) else None
    case ByCode(code) => if code in s.codes then Some(s.codes[code].createdBy) else None
  }

  /** The invite or code grants this role in this organisation. */
  predicate Grants(s: State, via: Via, orgId: string, role: Role) {
    match via
    case Founder => false
    case ByInvite(token) => token in s.invites && s.invites[token].orgId == orgId && s.invites[token].role == role
    case ByCode(code) => code in s.codes && s.codes[code].orgId == orgId && s.codes[code].role == role
  }

  predicate AdminOf(s: State, orgId: string, userId: string) {
    (orgId, userId) in s.members && IsAdmin(s.members[(orgId, userId)].role)
  }

  ghost predicate MemberOk(s: State, place: Place)
    requires place in s.members
  {
    var (orgId, userId) := place;
    var m := s.members[place];
    && orgId in s.orgs && m.order < s.order
    && (m.via.Founder? <==> s.orgs[orgId] == userId)
    && (m.role.Owner? <==> s.orgs[orgId] == userId)
    && (!m.via.Founder? ==>
          && Grants(s, m.via, orgId, m.role)
          && Sponsor(s, m.via).Some? && AdminOf(s, orgId, Sponsor(s, m.via).value)
          && s.members[(orgId, Sponsor(s, m.via).value)].order < m.order)
  }

  ghost predicate InviteOk(s: State, token: string)
    requires token in s.invites
  {
    !s.invites[token].role.Owner? && AdminOf(s, s.invites[token].orgId, s.invites[token].invitedBy)
  }

  ghost predicate CodeOk(s: State, code: string)
    requires code in s.codes
  {
    !s.codes[code].role.Owner? && AdminOf(s, s.codes[code].orgId, s.codes[code].createdBy)
  }

  /** The cached copy of an invite says what the row says. */
  ghost predicate CopyOk(s: State, token: string)
    requires token in s.cache
  {
    Grants(s, ByInvite(token), s.cache[token].orgId, s.cache[token].role)
  }

  ghost predicate JoinOk(s: State, j: Join) {
    Grants(s, j.via, j.orgId, j.role)
  }

  ghost predicate AskOk(s: State, place: Place) {
    AdminOf(s, place.0, place.1)
  }

  ghost predicate Inv(s: State) {
    && (forall o :: o in s.orgs ==> (o, s.orgs[o]) in s.members)
    && (forall p {:trigger MemberOk(s, p)} :: p in s.members ==> MemberOk(s, p))
    && (forall t {:trigger InviteOk(s, t)} :: t in s.invites ==> InviteOk(s, t))
    && (forall c {:trigger CodeOk(s, c)} :: c in s.codes ==> CodeOk(s, c))
    && (forall t {:trigger CopyOk(s, t)} :: t in s.cache ==> CopyOk(s, t))
    && (forall op {:trigger JoinOk(s, s.joins[op])} :: op in s.joins ==> JoinOk(s, s.joins[op]))
    && (forall op {:trigger AskOk(s, s.asked[op])} :: op in s.asked ==> AskOk(s, s.asked[op]))
  }

  /** Nothing is ever taken back: members, invites and codes stay and keep what they say. */
  ghost predicate Grows(s: State, s': State) {
    && s.order <= s'.order
    && (forall o :: o in s.orgs ==> o in s'.orgs && s'.orgs[o] == s.orgs[o])
    && (forall p :: p in s.members ==> p in s'.members && s'.members[p] == s.members[p])
    && (forall t :: t in s.invites ==>
          t in s'.invites && s'.invites[t].(accepted := s.invites[t].accepted) == s.invites[t])
    && (forall c :: c in s.codes ==> c in s'.codes && s'.codes[c] == s.codes[c])
  }

  /** So whatever was right stays right, and only what is new has to be looked at. */
  lemma OldStaysRight(s: State, s': State)
    requires Inv(s) && Grows(s, s')
    ensures forall o :: o in s.orgs ==> (o, s'.orgs[o]) in s'.members
    ensures forall p {:trigger MemberOk(s', p)} :: p in s.members ==> MemberOk(s', p)
    ensures forall t {:trigger InviteOk(s', t)} :: t in s.invites ==> InviteOk(s', t)
    ensures forall c {:trigger CodeOk(s', c)} :: c in s.codes ==> CodeOk(s', c)
    ensures forall t {:trigger CopyOk(s', t)} ::
              t in s.cache && t in s'.cache && s'.cache[t] == s.cache[t] ==> CopyOk(s', t)
    ensures forall op {:trigger JoinOk(s', s.joins[op])} :: op in s.joins ==> JoinOk(s', s.joins[op])
    ensures forall op {:trigger AskOk(s', s.asked[op])} :: op in s.asked ==> AskOk(s', s.asked[op])
  {
    forall p | p in s.members ensures MemberOk(s', p) { assert MemberOk(s, p); }
    forall t | t in s.invites ensures InviteOk(s', t) { assert InviteOk(s, t); }
    forall c | c in s.codes ensures CodeOk(s', c) { assert CodeOk(s, c); }
    forall t | t in s.cache && t in s'.cache && s'.cache[t] == s.cache[t] ensures CopyOk(s', t) { assert CopyOk(s, t); }
    forall op | op in s.joins ensures JoinOk(s', s.joins[op]) { assert JoinOk(s, s.joins[op]); }
    forall op | op in s.asked ensures AskOk(s', s.asked[op]) { assert AskOk(s, s.asked[op]); }
  }

  lemma CreateOrgKeeps(s: State, orgId: string, userId: string, name: string)
    requires Inv(s) && orgId !in s.orgs
    ensures Inv(CreateOrg(s, orgId, userId, name).0)
  {
    var s' := CreateOrg(s, orgId, userId, name).0;
    assert (orgId, userId) in s.members ==> MemberOk(s, (orgId, userId));
    assert Grows(s, s');
    OldStaysRight(s, s');
    assert name != "" ==> MemberOk(s', (orgId, userId));
  }

  lemma InsertInviteKeeps(s: State, orgId: string, inviter: string, email: string, role: Role, token: string,
                          cacheOk: bool)
    requires Inv(s) && token !in s.invites && !role.Owner? && AdminOf(s, orgId, inviter)
    ensures Inv(InsertInvite(s, orgId, inviter, email, role, token, cacheOk))
  {
    var s' := InsertInvite(s, orgId, inviter, email, role, token, cacheOk);
    assert Grows(s, s');
    OldStaysRight(s, s');
    assert InviteOk(s', token);
  }

  lemma InsertCodeKeeps(s: State, orgId: string, inviter: string, code: string)
    requires Inv(s) && AdminOf(s, orgId, inviter)
    ensures Inv(InsertCode(s, orgId, inviter, code).0)
  {
    var s' := InsertCode(s, orgId, inviter, code).0;
    assert Grows(s, s');
    OldStaysRight(s, s');
    if s' != s { assert CodeOk(s', code); }
  }

  /** What a join carries comes from an invite or code of that organisation, issued by one of its admins. */
  lemma SponsorOk(s: State, j: Join)
    requires Inv(s) && JoinOk(s, j)
    ensures j.orgId in s.orgs && (j.orgId, s.orgs[j.orgId]) in s.members && !j.role.Owner? && !j.via.Founder?
    ensures Sponsor(s, j.via).Some? && AdminOf(s, j.orgId, Sponsor(s, j.via).value)
    ensures s.members[(j.orgId, Sponsor(s, j.via).value)].order < s.order
  {
    match j.via {
      case ByInvite(token) => assert InviteOk(s, token);
      case ByCode(code) => assert CodeOk(s, code);
    }
    assert MemberOk(s, (j.orgId, Sponsor(s, j.via).value));
  }

  lemma NewMemberOk(s: State, j: Join)
    requires Inv(s) && JoinOk(s, j) && (j.orgId, j.userId) !in s.members
    ensures MemberOk(AddMember(s, j).0, (j.orgId, j.userId))
  {
    SponsorOk(s, j);
  }

  lemma AddMemberKeeps(s: State, j: Join)
    requires Inv(s) && JoinOk(s, j)
    ensures Inv(AddMember(s, j).0) && Grows(s, AddMember(s, j).0)
  {
    var s' := AddMember(s, j).0;
    assert Grows(s, s');
    OldStaysRight(s, s');
    if (j.orgId, j.userId) !in s.members { NewMemberOk(s, j); }
  }

  lemma MarkAcceptedKeeps(s: State, token: string, cacheOk: bool)
    requires Inv(s)
    ensures Inv(MarkAccepted(s, token, cacheOk))
  {
    OldStaysRight(s, MarkAccepted(s, token, cacheOk));
  }

  /** What is under way may change as long as joins carry what is granted and only admins ask for invites and codes. */
  lemma JoinsKeep(s: State, s': State)
    requires Inv(s) && s' == s.(joins := s'.joins, now := s'.now, asked := s'.asked)
    requires forall op :: op in s'.joins ==> JoinOk(s, s'.joins[op])
    requires forall op :: op in s'.asked ==> AskOk(s, s'.asked[op])
    ensures Inv(s')
  {
    OldStaysRight(s, s');
    forall op | op in s'.joins ensures JoinOk(s', s'.joins[op]) { assert JoinOk(s, s'.joins[op]); }
    forall op | op in s'.asked ensures AskOk(s', s'.asked[op]) { assert AskOk(s, s'.asked[op]); }
  }

  lemma ReadsAreRight(s: State, userId: string, token: string, code: string, cacheOk: bool)
    requires Inv(s)
    ensures ReadInvite(s, userId, token, cacheOk).Ok? ==> JoinOk(s, ReadInvite(s, userId, token, cacheOk).value)
    ensures ReadCode(s, userId, code).Ok? ==> JoinOk(s, ReadCode(s, userId, code).value)
  {
    assert token in s.cache ==> CopyOk(s, token);
  }

  lemma JoinStepKeeps(s: State, a: Action)
    requires Inv(s) && (a.Add? || a.Mark?)
    ensures Inv(Step(s, a))
  {
    if a.op in s.joins {
      var j := s.joins[a.op];
      assert JoinOk(s, j);
      if a.Add? && j.stage.Adding? {
        AddMemberKeeps(s, j);
        JoinsKeep(AddMember(s, j).0, Step(s, a));
      } else if a.Mark? && j.stage.Marking? && j.via.ByInvite? {
        MarkAcceptedKeeps(s, j.via.token, a.cacheOk);
        JoinsKeep(MarkAccepted(s, j.via.token, a.cacheOk), Step(s, a));
      }
    }
  }

  lemma RequestKeeps(s: State, a: Action)
    requires Inv(s) && (a.NewInvite? || a.NewCode?)
    ensures Inv(Step(s, a))
  {
    var s' := Step(s, a);
    if s' != s {
      var (orgId, inviter) := s.asked[a.op];
      assert AskOk(s, s.asked[a.op]);
      if a.NewInvite? {
        InsertInviteKeeps(s, orgId, inviter, a.email, a.role, a.token, a.cacheOk);
        JoinsKeep(InsertInvite(s, orgId, inviter, a.email, a.role, a.token, a.cacheOk), s');
      } else {
        InsertCodeKeeps(s, orgId, inviter, a.code);
        JoinsKeep(InsertCode(s, orgId, inviter, a.code).0, s');
      }
    }
  }

  lemma StartKeeps(s: State, a: Action)
    requires Inv(s) && (a.StartToken? || a.StartCode?)
    ensures Inv(Step(s, a))
  {
    if a.StartToken? {
      ReadsAreRight(s, a.userId, a.token, "", a.cacheOk);
    } else {
      ReadsAreRight(s, a.userId, "", a.code, false);
    }
    JoinsKeep(s, Step(s, a));
  }

  lemma StepKeeps(s: State, a: Action)
    requires Inv(s)
    ensures Inv(Step(s, a))
  {
    if a.NewOrg? {
      if a.orgId !in s.orgs { CreateOrgKeeps(s, a.orgId, a.userId, a.name); }
    } else if a.NewInvite? || a.NewCode? {
      RequestKeeps(s, a);
    } else if a.StartToken? || a.StartCode? {
      StartKeeps(s, a);
    } else if a.Add? || a.Mark? {
      JoinStepKeeps(s, a);
    } else if a.Ask? {
      AskKeeps(s, a);
    } else if a.CheckMember? {
      CheckKeeps(s, a);
    } else {
      JoinsKeep(s, Step(s, a));
    }
  }

  lemma AskKeeps(s: State, a: Action)
    requires Inv(s) && a.Ask?
    ensures Inv(Step(s, a))
  {
    var s' := Step(s, a);
    if s' != s {
      assert AskOk(s, s'.asked[a.op]);
      JoinsKeep(s, s');
    }
  }

  lemma CheckKeeps(s: State, a: Action)
    requires Inv(s) && a.CheckMember?
    ensures Inv(Step(s, a))
  {
    if a.op in s.joins && s.joins[a.op].stage.Checking? {
      var j, joins := s.joins[a.op], Step(s, a).joins;
      assert JoinOk(s, j) && JoinOk(s, j.(stage := Adding));
      assert Step(s, a) == s.(joins := joins);
      JoinsKeep(s, s.(joins := joins));
    }
  }

  lemma {:induction false} RunKeeps(rules: Rules, run: seq<Action>)
    ensures Inv(Run(rules, run))
  {
    if run != [] {
      RunKeeps(rules, run[..|run| - 1]);
      StepKeeps(Run(rules, run[..|run| - 1]), run[|run| - 1]);
    }
  }

  /**
   * A member, their sponsor, their sponsor's sponsor and so on: always members of the same organisation, all
   * but the first of them owners or admins, each having joined strictly before the one they let in, back to
   * the creator.
   */
  ghost function Lineage(s: State, orgId: string, userId: string): (line: seq<string>)
    requires Inv(s) && (orgId, userId) in s.members
    ensures |line| > 0 && line[0] == userId
    ensures orgId in s.orgs && line[|line| - 1] == s.orgs[orgId]
    ensures forall i :: 0 <= i < |line| ==> (orgId, line[i]) in s.members
    ensures forall i :: 0 < i < |line| ==> AdminOf(s, orgId, line[i])
    ensures forall i :: 0 <= i < |line| - 1 ==> Sponsor(s, s.members[(orgId, line[i])].via) == Some(line[i + 1])
    ensures forall i, j :: 0 <= i < j < |line| ==> s.members[(orgId, line[j])].order < s.members[(orgId, line[i])].order
    decreases s.members[(orgId, userId)].order
  {
    var m := s.members[(orgId, userId)];
    assert MemberOk(s, (orgId, userId));
    if m.via.Founder? then [userId]
    else [userId] + Lineage(s, orgId, Sponsor(s, m.via).value)
  }

  /**
   * Membership provenance, in every reachable state and however joins overlap: an organisation's only owner is
   * its creator, and every member is led back to the creator by who let whom in.
   */
  lemma MembershipProvenance(rules: Rules, run: seq<Action>, orgId: string, userId: string) returns (line: seq<string>)
    requires (orgId, userId) in Run(rules, run).members
    ensures var s := Run(rules, run);
            && orgId in s.orgs && AdminOf(s, orgId, s.orgs[orgId])
            && (s.members[(orgId, userId)].role.Owner? <==> userId == s.orgs[orgId])
            && |line| > 0 && line[0] == userId && line[|line| - 1] == s.orgs[orgId]
            && (forall i :: 0 < i < |line| ==> AdminOf(s, orgId, line[i]))
            && (forall i :: 0 <= i < |line| ==> (orgId, line[i]) in s.members)
            && (forall i :: 0 <= i < |line| - 1 ==>
                  Sponsor(s, s.members[(orgId, line[i])].via) == Some(line[i + 1]))
            && (forall i, j :: 0 <= i < j < |line| ==>
                  s.members[(orgId, line[j])].order < s.members[(orgId, line[i])].order)
  {
    RunKeeps(rules, run);
    var s := Run(rules, run);
    line := Lineage(s, orgId, userId);
    assert MemberOk(s, (orgId, userId)) && MemberOk(s, (orgId, s.orgs[orgId]));
  }
}

/** Exactly when an invite admits one member only. */
module InviteUse {
  import opened OrgMembership

  /** Joins by one invite take turns, and none is cut off before marking it. */
  predicate Strict(rules: Rules) {
    rules.turns && rules.finishes
  }

  predicate Accepted(s: State, token: string) {
    token in s.invites && s.invites[token].accepted
  }

  ghost predicate MarkPending(s: State, token: string) {
    exists op :: op in s.joins && s.joins[op].via == ByInvite(token) && s.joins[op].stage.Marking?
  }

  /** A join by invite has the invite to itself, and nobody has come in by it until the join adds them. */
  ghost predicate JoinAlone(s: State, op: nat)
    requires op in s.joins
  {
    var via := s.joins[op].via;
    via.ByInvite? ==>
      && !Accepted(s, via.token)
      && (forall other :: other in s.joins && s.joins[other].via == via ==> other == op)
      && (!s.joins[op].stage.Marking? ==> forall p :: p in s.members ==> s.members[p].via != via)
  }

  ghost predicate MemberAlone(s: State, p: Place)
    requires p in s.members
  {
    var via := s.members[p].via;
    via.ByInvite? ==>
      && (Accepted(s, via.token) || MarkPending(s, via.token))
      && (forall q :: q in s.members && s.members[q].via == via ==> q == p)
  }

  ghost predicate Single(s: State) {
    && (forall op {:trigger JoinAlone(s, op)} :: op in s.joins ==> JoinAlone(s, op))
    && (forall p {:trigger MemberAlone(s, p)} :: p in s.members ==> MemberAlone(s, p))
  }

  lemma StartKeepsJoins(rules: Rules, s: State, a: Action)
    requires Strict(rules) && Single(s) && a.StartToken? && Allowed(rules, s, a)
    ensures var s' := Step(s, a); forall op :: op in s'.joins ==> JoinAlone(s', op)
  {
    var s' := Step(s, a);
    forall op | op in s'.joins
      ensures JoinAlone(s', op)
    {
      if op in s.joins { assert JoinAlone(s, op); }
      if op == a.op && op !in s.joins {
        forall p | p in s.members
          ensures s.members[p].via != ByInvite(a.token)
        {
          assert MemberAlone(s, p);
        }
      }
    }
  }

  lemma StartKeepsSingle(rules: Rules, s: State, a: Action)
    requires Strict(rules) && Single(s) && a.StartToken? && Allowed(rules, s, a)
    ensures Single(Step(s, a))
  {
    var s' := Step(s, a);
    StartKeepsJoins(rules, s, a);
    forall p | p in s'.members
      ensures MemberAlone(s', p)
    {
      assert MemberAlone(s, p);
      PendingStays(s, s', s.members[p].via, a.op);
    }
  }

  /** What adding the member of a join does to members and joins. */
  ghost predicate Adds(s: State, s': State, op: nat)
    requires op in s.joins
  {
    var j := s.joins[op];
    var p := (j.orgId, j.userId);
    && s'.invites == s.invites
    && s'.members == (if p in s.members then s.members
                      else s.members[p := Member(j.role, s.order, j.via, j.readAt, s.now)])
    && s'.joins == (if p !in s.members && j.via.ByInvite? then s.joins[op := j.(stage := Marking)] else s.joins - {op})
  }

  lemma AddKeepsJoins(s: State, s': State, op: nat)
    requires Single(s) && op in s.joins && s.joins[op].stage.Adding? && Adds(s, s', op)
    ensures forall k :: k in s'.joins ==> JoinAlone(s', k)
  {
    assert JoinAlone(s, op);
    forall k | k in s'.joins
      ensures JoinAlone(s', k)
    {
      assert JoinAlone(s, k);
    }
  }

  lemma AddKeepsMembers(s: State, s': State, op: nat)
    requires Single(s) && op in s.joins && s.joins[op].stage.Adding? && Adds(s, s', op)
    ensures forall p :: p in s'.members ==> MemberAlone(s', p)
  {
    var j := s.joins[op];
    assert JoinAlone(s, op);
    forall p | p in s'.members
      ensures MemberAlone(s', p)
    {
      if p in s.members {
        assert MemberAlone(s, p);
        PendingStays(s, s', s.members[p].via, op);
      } else if j.via.ByInvite? {
        assert op in s'.joins && s'.joins[op].stage.Marking?;
      }
    }
  }

  lemma AddKeepsSingle(s: State, op: nat)
    requires Single(s)
    ensures Single(Step(s, Add(op)))
  {
    if op in s.joins && s.joins[op].stage.Adding? {
      AddAdds(s, op);
      AddKeepsJoins(s, Step(s, Add(op)), op);
      AddKeepsMembers(s, Step(s, Add(op)), op);
    }
  }

  lemma AddAdds(s: State, op: nat)
    requires op in s.joins && s.joins[op].stage.Adding?
    ensures Adds(s, Step(s, Add(op)), op)
  {
  }

  /** Only the step that marks an invite ends its pending mark. */
  lemma PendingStays(s: State, s': State, via: Via, op: nat)
    requires forall k :: k in s.joins && s.joins[k].stage.Marking? ==>
               (k in s'.joins && s'.joins[k] == s.joins[k]) || (k == op && s.joins[k].via != via)
    ensures via.ByInvite? && MarkPending(s, via.token) ==> MarkPending(s', via.token)
  {
    if via.ByInvite? && MarkPending(s, via.token) {
      var k :| k in s.joins && s.joins[k].via == via && s.joins[k].stage.Marking?;
      assert s'.joins[k] == s.joins[k];
    }
  }

  lemma MarkKeepsSingle(s: State, op: nat, cacheOk: bool)
    requires Inv(s) && Single(s)
    ensures Single(Step(s, Mark(op, cacheOk)))
  {
    var s' := Step(s, Mark(op, cacheOk));
    if op in s.joins && s.joins[op].stage.Marking? && s.joins[op].via.ByInvite? {
      var via := s.joins[op].via;
      assert JoinAlone(s, op) && JoinOk(s, s.joins[op]);
      forall k | k in s'.joins
        ensures JoinAlone(s', k)
      {
        assert JoinAlone(s, k);
      }
      forall p | p in s'.members
        ensures MemberAlone(s', p)
      {
        assert MemberAlone(s, p);
        if s.members[p].via != via { PendingStays(s, s', s.members[p].via, op); }
      }
    }
  }

  /** No member or join by invite is added, no pending mark is dropped, and no invite is marked. */
  ghost predicate Quiet(s: State, s': State) {
    && s'.members == s.members
    && (forall k :: k in s'.joins && s'.joins[k].via.ByInvite? ==>
          && k in s.joins && s'.joins[k].via == s.joins[k].via
          && (s'.joins[k].stage.Marking? <==> s.joins[k].stage.Marking?))
    && (forall k :: k in s.joins && s.joins[k].stage.Marking? ==> k in s'.joins && s'.joins[k] == s.joins[k])
    && (forall t :: Accepted(s', t) <==> Accepted(s, t))
  }

  lemma QuietKeepsSingle(s: State, s': State)
    requires Single(s) && Quiet(s, s')
    ensures Single(s')
  {
    forall k | k in s'.joins
      ensures JoinAlone(s', k)
    {
      if k in s.joins { assert JoinAlone(s, k); }
    }
    forall p | p in s'.members
      ensures MemberAlone(s', p)
    {
      assert MemberAlone(s, p);
      PendingStays(s, s', s.members[p].via, 0);
    }
  }

  lemma RequestsAreQuiet(s: State, a: Action)
    requires a.Ask? || a.NewInvite? || a.NewCode? || a.Forget? || a.Tick?
    ensures Quiet(s, Step(s, a))
  {
  }

  /** Dropping or advancing a join that is not marking, or starting one by code, is quiet. */
  lemma JoinChangeIsQuiet(s: State, op: nat, joins: map<nat, Join>)
    requires op in s.joins ==> !s.joins[op].stage.Marking?
    requires forall k :: k != op ==> (k in joins <==> k in s.joins) && (k in s.joins ==> joins[k] == s.joins[k])
    requires op in joins ==>
               || (op in s.joins && joins[op].via == s.joins[op].via && !joins[op].stage.Marking?)
               || !joins[op].via.ByInvite?
    ensures Quiet(s, s.(joins := joins))
  {
  }

  lemma JoinsAreQuiet(rules: Rules, s: State, a: Action)
    requires Strict(rules) && Allowed(rules, s, a) && (a.StartCode? || a.CheckMember? || a.Abandon?)
    ensures Quiet(s, Step(s, a))
  {
    var joins := Step(s, a).joins;
    assert Step(s, a) == s.(joins := joins);
    if Step(s, a) != s { JoinChangeIsQuiet(s, a.op, joins); }
  }

  lemma OtherKeepsSingle(rules: Rules, s: State, a: Action)
    requires Strict(rules) && Single(s) && Allowed(rules, s, a) && !a.StartToken? && !a.Add? && !a.Mark? && !a.NewOrg?
    ensures Single(Step(s, a))
  {
    if a.Ask? || a.NewInvite? || a.NewCode? || a.Forget? || a.Tick? {
      RequestsAreQuiet(s, a);
    } else {
      JoinsAreQuiet(rules, s, a);
    }
    QuietKeepsSingle(s, Step(s, a));
  }

  lemma NewOrgKeepsSingle(s: State, a: Action)
    requires Inv(s) && Single(s) && a.NewOrg?
    ensures Single(Step(s, a))
  {
    var s' := Step(s, a);
    if s' != s {
      assert (a.orgId, a.userId) in s.members ==> MemberOk(s, (a.orgId, a.userId));
      forall k | k in s'.joins
        ensures JoinAlone(s', k)
      {
        assert JoinAlone(s, k);
      }
      forall p | p in s'.members
        ensures MemberAlone(s', p)
      {
        if p in s.members { assert MemberAlone(s, p); PendingStays(s, s', s.members[p].via, 0); }
      }
    }
  }

  lemma {:induction false} RunSingle(rules: Rules, run: seq<Action>)
    requires Strict(rules)
    ensures Single(Run(rules, run))
  {
    if run != [] {
      var s, a := Run(rules, run[..|run| - 1]), run[|run| - 1];
      RunSingle(rules, run[..|run| - 1]);
      RunKeeps(rules, run[..|run| - 1]);
      if Allowed(rules, s, a) {
        if a.StartToken? { StartKeepsSingle(rules, s, a); }
        else if a.Add? { AddKeepsSingle(s, a.op); }
        else if a.Mark? { MarkKeepsSingle(s, a.op, a.cacheOk); }
        else if a.NewOrg? { NewOrgKeepsSingle(s, a); }
        else { OtherKeepsSingle(rules, s, a); }
      }
    }
  }

  /** No invite has let in two members. */
  ghost predicate OneEach(s: State) {
    forall p, q ::
      p in s.members && q in s.members && s.members[p].via == s.members[q].via && s.members[p].via.ByInvite? ==>
      p == q
  }

  /** When joins by one invite take turns and none is cut off before marking it, an invite admits at most one member. */
  lemma InviteAdmitsOne(rules: Rules, run: seq<Action>)
    requires Strict(rules)
    ensures OneEach(Run(rules, run))
  {
    RunSingle(rules, run);
    var s := Run(rules, run);
    forall p | p in s.members ensures MemberAlone(s, p) {}
  }

  lemma Extend(rules: Rules, run: seq<Action>, a: Action) returns (run': seq<Action>)
    requires Allowed(rules, Run(rules, run), a)
    ensures Run(rules, run') == Step(Run(rules, run), a)
  {
    run' := run + [a];
    assert run'[..|run'| - 1] == run;
  }

  const OPEN := Invite("o", "u", "e", Developer, 0, INVITE_TTL, false)

  /** An organisation with one open invite. */
  lemma Invited(rules: Rules) returns (run: seq<Action>)
    ensures var s := Run(rules, run);
            && s.members == map[("o", "u") := Member(Owner, 0, Founder, 0, 0)] && s.joins == map[] && s.now == 0
            && s.invites == map["t" := OPEN] && s.cache == map[]
  {
    run := Extend(rules, [], NewOrg("o", "u", "name"));
    run := Extend(rules, run, Ask(0, "o", "u"));
    run := Extend(rules, run, NewInvite(0, "e", Developer, "t", false));
  }

  /** A join of the invite that has read it. */
  function Reading(userId: string, at: nat): Join {
    Join(userId, "o", Developer, ByInvite("t"), at, Checking)
  }

  /** A state in which a join of the invite has read it, and the one in which it has added its member. */
  function Read(s: State, op: nat, userId: string): State {
    s.(joins := s.joins[op := Reading(userId, s.now)])
  }

  function CameIn(s: State, op: nat, userId: string, at: nat): State {
    s.(members := s.members[("o", userId) := Member(Developer, s.order, ByInvite("t"), at, s.now)],
       order := s.order + 1, joins := s.joins[op := Reading(userId, at).(stage := Marking)])
  }

  lemma Reads(rules: Rules, run: seq<Action>, op: nat, userId: string) returns (run': seq<Action>)
    requires var s := Run(rules, run);
             && op !in s.joins && s.cache == map[] && s.now <= INVITE_TTL && s.invites == map["t" := OPEN]
             && Allowed(rules, s, StartToken(op, userId, "t", true))
    ensures Run(rules, run') == Read(Run(rules, run), op, userId)
  {
    run' := Extend(rules, run, StartToken(op, userId, "t", true));
  }

  /** The two steps by which a join that has read the invite adds its member. */
  lemma CheckAndAdd(s: State, op: nat, userId: string, at: nat)
    requires op in s.joins && s.joins[op] == Reading(userId, at) && ("o", userId) !in s.members
    ensures Step(Step(s, CheckMember(op)), Add(op)) == CameIn(s, op, userId, at)
  {
    var s1 := Step(s, CheckMember(op));
    var marking := Reading(userId, at).(stage := Marking);
    assert s1 == s.(joins := s.joins[op := Reading(userId, at).(stage := Adding)]);
    assert s1.joins[op := marking] == s.joins[op := marking];
  }

  lemma ComesIn(rules: Rules, run: seq<Action>, op: nat, userId: string, at: nat) returns (run': seq<Action>)
    requires var s := Run(rules, run);
             op in s.joins && s.joins[op] == Reading(userId, at) && ("o", userId) !in s.members
    ensures Run(rules, run') == CameIn(Run(rules, run), op, userId, at)
  {
    CheckAndAdd(Run(rules, run), op, userId, at);
    run' := Extend(rules, run, CheckMember(op));
    run' := Extend(rules, run', Add(op));
  }

  lemma BothCameIn(s: State)
    requires ("o", "a") in s.members && ("o", "b") in s.members
    requires s.members[("o", "a")].via == s.members[("o", "b")].via == ByInvite("t")
    ensures !OneEach(s)
  {
    assert ("o", "a").1 != ("o", "b").1;
  }

  /** Two people who present one invite before either join marks it both become members, even if no join is cut off. */
  lemma OverlapAdmitsTwo(rules: Rules) returns (run: seq<Action>)
    requires !rules.turns
    ensures !OneEach(Run(rules, run))
  {
    run := Invited(rules);
    run := Reads(rules, run, 1, "a");
    run := Reads(rules, run, 2, "b");
    run := ComesIn(rules, run, 1, "a", 0);
    run := ComesIn(rules, run, 2, "b", 0);
    BothCameIn(Run(rules, run));
  }

  /** And a join cut off after adding its member leaves the invite open for the next one, even if no joins overlap. */
  lemma CutOffLeavesOpen(rules: Rules) returns (run: seq<Action>)
    requires !rules.finishes
    ensures !OneEach(Run(rules, run))
  {
    run := Invited(rules);
    run := Reads(rules, run, 1, "a");
    run := ComesIn(rules, run, 1, "a", 0);
    run := Extend(rules, run, Abandon(1));
    run := Reads(rules, run, 2, "b");
    run := ComesIn(rules, run, 2, "b", 0);
    BothCameIn(Run(rules, run));
  }

  /**
   * Exactly when invites are one-time: no run lets two members in by one invite if and only if joins by one invite
   * do not overlap and none is cut off before marking it. Neither condition is enough alone.
   */
  lemma OneTimeIff(rules: Rules)
    ensures (forall run :: OneEach(Run(rules, run))) <==> Strict(rules)
  {
    if Strict(rules) {
      forall run ensures OneEach(Run(rules, run)) { InviteAdmitsOne(rules, run); }
    } else {
      var run;
      if !rules.turns { run := OverlapAdmitsTwo(rules); } else { run := CutOffLeavesOpen(rules); }
    }
  }
}

/** How long an invite can be used. */
module InviteExpiry {
  import opened Prelude
  import opened OrgMembership
  import opened InviteUse

  /** Read while the invite was open, and not longer ago than the rules allow. */
  ghost predicate ReadInTime(rules: Rules, s: State, token: string, readAt: nat, at: nat) {
    && token in s.invites && s.invites[token].sentAt <= readAt <= s.invites[token].sentAt + INVITE_TTL
    && readAt <= at <= s.now
    && (rules.longest.Some? ==> at <= readAt + rules.longest.value)
  }

  ghost predicate JoinInTime(rules: Rules, s: State, j: Join) {
    && j.readAt <= s.now && (rules.longest.Some? ==> s.now <= j.readAt + rules.longest.value)
    && (j.via.ByInvite? ==> ReadInTime(rules, s, j.via.token, j.readAt, s.now))
  }

  ghost predicate MemberInTime(rules: Rules, s: State, m: Member) {
    m.via.ByInvite? ==> ReadInTime(rules, s, m.via.token, m.readAt, m.joinedAt)
  }

  ghost predicate InviteTimed(s: State, invite: Invite) {
    invite.sentAt <= s.now && invite.expiresAt == invite.sentAt + INVITE_TTL
  }

  ghost predicate Timely(rules: Rules, s: State) {
    && (forall t {:trigger InviteTimed(s, s.invites[t])} :: t in s.invites ==> InviteTimed(s, s.invites[t]))
    && (forall op {:trigger JoinInTime(rules, s, s.joins[op])} ::
          op in s.joins ==> JoinInTime(rules, s, s.joins[op]))
    && (forall p {:trigger MemberInTime(rules, s, s.members[p])} ::
          p in s.members ==> MemberInTime(rules, s, s.members[p]))
  }

  /** Invites stay and keep when they were sent and end; new ones are sent now. */
  ghost predicate InvitesStay(s: State, s': State) {
    && s.now <= s'.now
    && (forall t :: t in s.invites ==>
          && t in s'.invites && s'.invites[t].sentAt == s.invites[t].sentAt
          && s'.invites[t].expiresAt == s.invites[t].expiresAt)
    && (forall t :: t in s'.invites ==> t in s.invites || InviteTimed(s', s'.invites[t]))
  }

  /** A new join has read its code, or an open invite that is not expired, just now; no other changes what it read. */
  ghost predicate JoinsReadNow(s: State, s': State) {
    forall op :: op in s'.joins ==>
      || (op in s.joins && s'.joins[op].via == s.joins[op].via && s'.joins[op].readAt == s.joins[op].readAt)
      || (s'.joins[op].readAt == s.now == s'.now
          && (s'.joins[op].via.ByInvite? ==>
                var t := s'.joins[op].via.token;
                t in s.invites && !s.invites[t].accepted && s.now <= s.invites[t].expiresAt))
  }

  /** A new member by invite is added just now, by a join under way. */
  ghost predicate MembersJoinNow(s: State, s': State) {
    forall p :: p in s'.members && s'.members[p].via.ByInvite? ==>
      || (p in s.members && s'.members[p] == s.members[p])
      || (s'.members[p].joinedAt == s.now == s'.now
          && exists op :: op in s.joins && s.joins[op].via == s'.members[p].via
                          && s.joins[op].readAt == s'.members[p].readAt)
  }

  ghost predicate Stands(s: State, s': State) {
    s'.now == s.now && InvitesStay(s, s') && JoinsReadNow(s, s') && MembersJoinNow(s, s')
  }

  lemma RequestStands(s: State, a: Action)
    requires a.NewOrg? || a.Ask? || a.NewInvite? || a.NewCode? || a.Forget?
    ensures Stands(s, Step(s, a))
  {
    assert Step(s, a).joins == s.joins;
  }

  lemma StartStands(s: State, a: Action)
    requires a.StartToken? || a.StartCode?
    ensures Stands(s, Step(s, a))
  {
    assert Step(s, a).members == s.members && Step(s, a).invites == s.invites;
  }

  lemma AddStands(s: State, s': State, op: nat)
    requires op in s.joins && Adds(s, s', op) && s'.now == s.now
    ensures Stands(s, s')
  {
    forall p | p in s'.members && s'.members[p].via.ByInvite? && p !in s.members
      ensures s'.members[p].joinedAt == s.now && s.joins[op].via == s'.members[p].via
              && s.joins[op].readAt == s'.members[p].readAt
    {
    }
  }

  lemma DropStands(s: State, s': State)
    requires s'.now == s.now && s'.members == s.members && InvitesStay(s, s')
    requires forall op :: op in s'.joins ==>
               op in s.joins && s'.joins[op].via == s.joins[op].via && s'.joins[op].readAt == s.joins[op].readAt
    ensures Stands(s, s')
  {
  }

  lemma JoinAddStands(s: State, op: nat)
    ensures Stands(s, Step(s, Add(op)))
  {
    if op in s.joins && s.joins[op].stage.Adding? {
      AddAdds(s, op);
      AddStands(s, Step(s, Add(op)), op);
    } else {
      DropStands(s, Step(s, Add(op)));
    }
  }

  lemma CheckStands(s: State, a: Action)
    requires a.CheckMember? || a.Abandon?
    ensures Stands(s, Step(s, a))
  {
    var joins := Step(s, a).joins;
    assert Step(s, a) == s.(joins := joins);
    DropStands(s, s.(joins := joins));
  }

  lemma MarkStands(s: State, a: Action)
    requires a.Mark?
    ensures Stands(s, Step(s, a))
  {
    DropStands(s, Step(s, a));
  }

  lemma StepStands(s: State, a: Action)
    requires !a.Tick?
    ensures Stands(s, Step(s, a))
  {
    if a.StartToken? || a.StartCode? { StartStands(s, a); }
    else if a.Add? { JoinAddStands(s, a.op); }
    else if a.Mark? { MarkStands(s, a); }
    else if a.CheckMember? || a.Abandon? { CheckStands(s, a); }
    else { RequestStands(s, a); }
  }

  lemma InvitesKeep(rules: Rules, s: State, s': State)
    requires Timely(rules, s) && InvitesStay(s, s')
    ensures forall t :: t in s'.invites ==> InviteTimed(s', s'.invites[t])
    ensures forall op :: op in s.joins && s'.now == s.now ==> JoinInTime(rules, s', s.joins[op])
    ensures forall p :: p in s.members ==> MemberInTime(rules, s', s.members[p])
  {
    forall t | t in s.invites ensures InviteTimed(s', s'.invites[t]) { assert InviteTimed(s, s.invites[t]); }
    forall op | op in s.joins && s'.now == s.now
      ensures JoinInTime(rules, s', s.joins[op])
    {
      assert JoinInTime(rules, s, s.joins[op]);
    }
    forall p | p in s.members
      ensures MemberInTime(rules, s', s.members[p])
    {
      assert MemberInTime(rules, s, s.members[p]);
    }
  }

  /** While the clock stands, reading and adding just now is in time. */
  lemma StandingKeepsTimes(rules: Rules, s: State, s': State)
    requires Timely(rules, s) && Stands(s, s')
    ensures Timely(rules, s')
  {
    InvitesKeep(rules, s, s');
    forall op | op in s'.joins
      ensures JoinInTime(rules, s', s'.joins[op])
    {
      if op in s.joins { assert JoinInTime(rules, s', s.joins[op]); }
      var via := s'.joins[op].via;
      if via.ByInvite? && via.token in s.invites { assert InviteTimed(s, s.invites[via.token]); }
    }
    forall p | p in s'.members
      ensures MemberInTime(rules, s', s'.members[p])
    {
      if s'.members[p].via.ByInvite? && !(p in s.members && s'.members[p] == s.members[p]) {
        var op :| op in s.joins && s.joins[op].via == s'.members[p].via && s.joins[op].readAt == s'.members[p].readAt;
        assert JoinInTime(rules, s', s.joins[op]);
      }
    }
  }

  /** And the clock moves only as far as the joins under way allow. */
  lemma TickKeepsTimes(rules: Rules, s: State, dt: nat)
    requires Timely(rules, s) && Allowed(rules, s, Tick(dt))
    ensures Timely(rules, Step(s, Tick(dt)))
  {
    var s' := Step(s, Tick(dt));
    InvitesKeep(rules, s, s');
    forall op | op in s'.joins
      ensures JoinInTime(rules, s', s'.joins[op])
    {
      assert JoinInTime(rules, s, s.joins[op]);
    }
  }

  lemma {:induction false} RunTimely(rules: Rules, run: seq<Action>)
    ensures Timely(rules, Run(rules, run))
  {
    if run != [] {
      var s, a := Run(rules, run[..|run| - 1]), run[|run| - 1];
      RunTimely(rules, run[..|run| - 1]);
      if Allowed(rules, s, a) {
        if a.Tick? { TickKeepsTimes(rules, s, a.dt); }
        else { StepStands(s, a); StandingKeepsTimes(rules, s, Step(s, a)); }
      }
    }
  }

  /**
   * Over all runs, whoever came in by an invite came by a join that read it after it was sent and before its time
   * was over; the row was added at most as much later as a join may take.
   */
  lemma ExpiredAdmitsNobody(rules: Rules, run: seq<Action>, p: Place)
    requires p in Run(rules, run).members && Run(rules, run).members[p].via.ByInvite?
    ensures var s := Run(rules, run);
            var m := s.members[p];
            && m.via.token in s.invites && s.invites[m.via.token].orgId == p.0 && s.invites[m.via.token].role == m.role
            && s.invites[m.via.token].sentAt <= m.readAt <= s.invites[m.via.token].sentAt + INVITE_TTL
            && m.readAt <= m.joinedAt <= s.now
            && (rules.longest.Some? ==> m.joinedAt <= m.readAt + rules.longest.value)
  {
    RunTimely(rules, run);
    RunKeeps(rules, run);
    assert MemberInTime(rules, Run(rules, run), Run(rules, run).members[p]);
    assert MemberOk(Run(rules, run), p);
  }

  /** Everyone who came in by an invite did so at most `late` after it expired. */
  ghost predicate JoinedBy(s: State, late: nat) {
    forall p :: p in s.members && s.members[p].via.ByInvite? ==>
      && s.members[p].via.token in s.invites
      && s.members[p].joinedAt <= s.invites[s.members[p].via.token].sentAt + INVITE_TTL + late
  }

  /** A join reads its invite at the last moment. */
  lemma ReadsLast(rules: Rules) returns (run: seq<Action>)
    ensures var s := Run(rules, run);
            && s.now == INVITE_TTL && s.invites == map["t" := OPEN] && s.joins == map[1 := Reading("a", INVITE_TTL)]
            && s.members == map[("o", "u") := Member(Owner, 0, Founder, 0, 0)]
  {
    run := Invited(rules);
    run := Extend(rules, run, Tick(INVITE_TTL));
    run := Reads(rules, run, 1, "a");
  }

  /** And takes one tick more than `late` to add its member. */
  lemma LateJoin(rules: Rules, late: nat) returns (run: seq<Action>)
    requires rules.longest.Some? ==> late < rules.longest.value
    ensures !JoinedBy(Run(rules, run), late)
  {
    run := ReadsLast(rules);
    run := Extend(rules, run, Tick(late + 1));
    run := ComesIn(rules, run, 1, "a", INVITE_TTL);
    assert Run(rules, run).members[("o", "a")].joinedAt == INVITE_TTL + late + 1;
  }

  lemma NobodyLater(rules: Rules, run: seq<Action>, late: nat)
    requires rules.longest.Some? && rules.longest.value <= late
    ensures JoinedBy(Run(rules, run), late)
  {
    var s := Run(rules, run);
    RunTimely(rules, run);
    forall p | p in s.members && s.members[p].via.ByInvite? ensures MemberInTime(rules, s, s.members[p]) {}
  }

  /**
   * Exactly when a row can be added after its invite has expired, for every delay: at most `late` after the expiry
   * in every run if and only if no join takes longer than that.
   */
  lemma JoinedByIff(rules: Rules, late: nat)
    ensures (forall run :: JoinedBy(Run(rules, run), late)) <==>
            rules.longest.Some? && rules.longest.value <= late
  {
    if rules.longest.Some? && rules.longest.value <= late {
      forall run ensures JoinedBy(Run(rules, run), late) { NobodyLater(rules, run, late); }
    } else {
      var run := LateJoin(rules, late);
    }
  }
}

/** The organisation service as the source writes it; a join without interruption is the steps above in order. */
module OrgService {
  import opened Prelude
  import opened OrgMembership

  /** Which accesses of a join succeed: reading the invite or code, its cached copy, the role, and what follows. */
  datatype JoinFate = JoinFate(readOk: bool, cacheOk: bool, roleOk: bool, addOk: bool, markOk: bool, orgOk: bool)

  function LookUpInvite(s: State, userId: string, token: string, f: JoinFate): Result<Join, Failure> {
    if token != "" && !f.readOk then Err(StoreError) else ReadInvite(s, userId, token, f.cacheOk)
  }

  function LookUpCode(s: State, userId: string, code: string, f: JoinFate): Result<Join, Failure> {
    if code != "" && !f.readOk then Err(StoreError) else ReadCode(s, userId, code)
  }

  /** `JoinViaToken` and `JoinViaCode` after their look-ups, down to the organisation's name, which is read last. */
  function Finish(s: State, read: Result<Join, Failure>, f: JoinFate): (State, Result<Role, Failure>) {
    match read
    case Err(e) => (s, Err(e))
    case Ok(j) =>
      if !f.roleOk then (s, Err(StoreError))
      else if (j.orgId, j.userId) in s.members then (s, Err(AlreadyOrgMember))
      else if !f.addOk then (s, Err(StoreError))
      else
        var (s', added) := AddMember(s, j);
        if j.via.ByInvite? && !f.markOk then (s', Err(StoreError))
        else
          var s'' := if j.via.ByInvite? then MarkAccepted(s', j.via.token, f.cacheOk) else s';
          (s'', if f.orgOk then added else Err(StoreError))
  }

  /** The last of four steps: a join whose mark fails, or that came by a code, is over after adding. */
  function LastStep(op: nat, f: JoinFate): Action {
    if f.markOk then Mark(op, f.cacheOk) else Abandon(op)
  }

  /** The steps of an uninterrupted join, cut short by the first access that fails. */
  function JoinSteps(op: nat, start: Action, f: JoinFate): seq<Action> {
    if !f.readOk then []
    else if !f.roleOk then [start, Abandon(op)]
    else if !f.addOk then [start, CheckMember(op), Abandon(op)]
    else [start, CheckMember(op), Add(op), LastStep(op, f)]
  }

  function DoAll(s: State, steps: seq<Action>): State
    decreases |steps|
  {
    if steps == [] then s else DoAll(Step(s, steps[0]), steps[1..])
  }

  /** The start of a join by invite or code, and what it looks up. */
  predicate Starts(s: State, op: nat, start: Action, read: Result<Join, Failure>, f: JoinFate) {
    || (start.StartToken? && start.op == op && start.cacheOk == f.cacheOk
        && read == LookUpInvite(s, start.userId, start.token, f))
    || (start.StartCode? && start.op == op && read == LookUpCode(s, start.userId, start.code, f))
  }

  /** An uninterrupted join, whatever joins are under way beside it and whatever fails, is its steps in order. */
  lemma JoinIsSteps(s: State, op: nat, start: Action, read: Result<Join, Failure>, f: JoinFate)
    requires op !in s.joins && Starts(s, op, start, read, f)
    ensures DoAll(s, JoinSteps(op, start, f)) == Finish(s, read, f).0
  {
    if f.readOk {
      if read.Err? {
        NoJoinSkips(s, op, f);
        SkippedSteps(s, op, start, f);
      } else {
        LookedUp(s, op, start, read.value, f);
      }
    }
  }

  lemma SkippedSteps(s: State, op: nat, start: Action, f: JoinFate)
    requires f.readOk && Step(s, start) == s
    requires Step(s, CheckMember(op)) == Step(s, Add(op)) == Step(s, LastStep(op, f)) == Step(s, Abandon(op)) == s
    ensures DoAll(s, JoinSteps(op, start, f)) == s
  {
    if f.roleOk && f.addOk {
      assert JoinSteps(op, start, f)[1..] == [CheckMember(op), Add(op), LastStep(op, f)];
      DoThree(s, CheckMember(op), Add(op), LastStep(op, f));
    } else if f.roleOk {
      DoThree(s, start, CheckMember(op), Abandon(op));
    } else {
      DoTwo(s, start, Abandon(op));
    }
  }

  lemma DoTwo(s: State, a: Action, b: Action)
    ensures DoAll(s, [a, b]) == Step(Step(s, a), b)
  {
    assert [a, b][1..] == [b] && [b][1..] == [];
    assert DoAll(Step(s, a), [b]) == DoAll(Step(Step(s, a), b), []);
  }

  lemma DoThree(s: State, a: Action, b: Action, c: Action)
    ensures DoAll(s, [a, b, c]) == Step(Step(Step(s, a), b), c)
  {
    assert [a, b, c][1..] == [b, c];
    DoTwo(Step(s, a), b, c);
  }

  lemma LookedUp(s: State, op: nat, start: Action, j: Join, f: JoinFate)
    requires op !in s.joins && f.readOk && Starts(s, op, start, Ok(j), f)
    ensures DoAll(s, JoinSteps(op, start, f)) == Finish(s, Ok(j), f).0
  {
    var s1 := s.(joins := s.joins[op := j]);
    assert Step(s, start) == s1 && j.stage.Checking?;
    CheckOnly(s, op, j);
    AbandonOnly(s, op, j);
    AbandonOnly(s, op, j.(stage := Adding));
    NoJoinSkips(s, op, f);
    if !f.roleOk {
      DoTwo(s, start, Abandon(op));
    } else if !f.addOk {
      DoThree(s, start, CheckMember(op), Abandon(op));
    } else {
      assert JoinSteps(op, start, f)[1..] == [CheckMember(op), Add(op), LastStep(op, f)];
      DoThree(s1, CheckMember(op), Add(op), LastStep(op, f));
      if (j.orgId, j.userId) !in s.members {
        AddIsStep(s, s.(joins := s.joins[op := j.(stage := Adding)]), op, j.(stage := Adding), f);
      }
    }
  }

  lemma AbandonOnly(s: State, op: nat, j: Join)
    requires op !in s.joins
    ensures Step(s.(joins := s.joins[op := j]), Abandon(op)) == s
  {
    assert s.joins[op := j] - {op} == s.joins;
  }

  lemma CheckOnly(s: State, op: nat, j: Join)
    requires op !in s.joins && j.stage.Checking?
    ensures Step(s.(joins := s.joins[op := j]), CheckMember(op)) ==
            if (j.orgId, j.userId) in s.members then s else s.(joins := s.joins[op := j.(stage := Adding)])
  {
    var s1 := s.(joins := s.joins[op := j]);
    assert s1.joins - {op} == s.joins;
    assert s1.joins[op := j.(stage := Adding)] == s.joins[op := j.(stage := Adding)];
  }

  lemma NoJoinSkips(s: State, op: nat, f: JoinFate)
    requires op !in s.joins
    ensures Step(s, CheckMember(op)) == Step(s, Add(op)) == Step(s, LastStep(op, f)) == Step(s, Abandon(op)) == s
  {
    assert s.joins - {op} == s.joins;
  }

  lemma AddOnly(s: State, s2: State, op: nat, j: Join)
    requires op !in s.joins && s2 == s.(joins := s.joins[op := j]) && j.stage.Adding?
    requires (j.orgId, j.userId) !in s.members
    ensures Step(s2, Add(op)) ==
            AddMember(s, j).0.(joins := if j.via.ByInvite? then s.joins[op := j.(stage := Marking)] else s.joins)
  {
    assert AddMember(s2, j).0 == AddMember(s, j).0.(joins := s2.joins);
    assert s2.joins - {op} == s.joins;
    assert s2.joins[op := j.(stage := Marking)] == s.joins[op := j.(stage := Marking)];
  }

  lemma AddIsStep(s: State, s2: State, op: nat, j: Join, f: JoinFate)
    requires op !in s.joins && s2 == s.(joins := s.joins[op := j]) && j.stage.Adding?
    requires (j.orgId, j.userId) !in s.members && f.roleOk && f.addOk
    ensures Step(Step(s2, Add(op)), LastStep(op, f)) == Finish(s, Ok(j), f).0
  {
    var added := AddMember(s, j).0;
    AddOnly(s, s2, op, j);
    if j.via.ByInvite? {
      MarkIsStep(added, op, j.(stage := Marking), f);
    } else {
      NoJoinSkips(added, op, f);
    }
  }

  lemma MarkIsStep(s: State, op: nat, j: Join, f: JoinFate)
    requires op !in s.joins && j.stage.Marking? && j.via.ByInvite?
    ensures Step(s.(joins := s.joins[op := j]), LastStep(op, f)) ==
            if f.markOk then MarkAccepted(s, j.via.token, f.cacheOk) else s
  {
    assert s.joins[op := j] - {op} == s.joins;
  }

  /** An uninterrupted request for an invite is its check and its insert, as far as the accesses succeed. */
  lemma InviteIsSteps(s: State, op: nat, orgId: string, inviter: string, email: string, role: Role, token: string,
                      f: IssueFate)
    requires op !in s.asked && token != "" && token !in s.invites && !role.Owner?
    ensures var last := if f.storeOk then NewInvite(op, email, role, token, f.cacheOk) else Forget(op);
            (if f.roleOk then Step(Step(s, Ask(op, orgId, inviter)), last) else s) ==
            SendInvite(s, orgId, inviter, email, true, role, token, f).0
  {
    var s1 := Step(s, Ask(op, orgId, inviter));
    assert s1.asked - {op} == s.asked;
  }

  /** And so is one for a code. */
  lemma CodeIsSteps(s: State, op: nat, orgId: string, inviter: string, code: string, f: IssueFate)
    requires op !in s.asked
    ensures var last := if f.storeOk then NewCode(op, code) else Forget(op);
            (if f.roleOk then Step(Step(s, Ask(op, orgId, inviter)), last) else s) ==
            GenerateCode(s, orgId, inviter, code, f).0
  {
    var s1 := Step(s, Ask(op, orgId, inviter));
    if f.roleOk {
      assert s1.asked - {op} == s.asked;
      assert Step(s1, Forget(op)) == s;
    }
  }

  /** Creating an organisation makes its creator the owner and touches nobody else. */
  ghost predicate OrgCreated(s: State, s': State, r: Result<Role, Failure>, orgId: string, userId: string,
                             name: string)
  {
    && r == (if name == "" then Err(InvalidOrgName) else Ok(Owner))
    && s' == if name == "" then s
             else s.(orgs := s.orgs[orgId := userId], order := s.order + 1,
                     members := s.members[(orgId, userId) := Member(Owner, s.order, Founder, s.now, s.now)])
  }

  /** Owners and admins, and nobody else, may let people in. */
  predicate Host(s: State, orgId: string, userId: string) {
    (orgId, userId) in s.members && s.members[(orgId, userId)].role in {Owner, Admin}
  }

  /** What requests for invites and codes ask of who makes them, by the answer of a request that came so far. */
  ghost predicate Screened(s: State, failure: Option<Failure>, orgId: string, userId: string, f: IssueFate) {
    && (failure.None? ==> f.roleOk && f.storeOk && Host(s, orgId, userId))
    && (failure == Some(NotOrgMember) <==> f.roleOk && (orgId, userId) !in s.members)
    && (failure == Some(InsufficientPermissions) <==>
          f.roleOk && (orgId, userId) in s.members && !Host(s, orgId, userId))
    && (failure.Some? ==> failure.value in {NotOrgMember, InsufficientPermissions, StoreError})
  }

  function FailureOf<T>(r: Result<T, Failure>): Option<Failure> {
    match r
    case Ok(_) => None
    case Err(failure) => Some(failure)
  }

  /** Who can invite whom, and what an invite says. */
  ghost predicate InviteSent(s: State, s': State, r: Result<string, Failure>, orgId: string, inviter: string,
                             email: string, emailOk: bool, role: Role, token: string, f: IssueFate)
  {
    && (r == Err(InvalidEmail) <==> !emailOk)
    && (r == Err(InvalidInviteRole) <==> emailOk && role == Owner)
    && (emailOk && role != Owner ==> Screened(s, FailureOf(r), orgId, inviter, f))
    && (r.Ok? <==> emailOk && role in {Admin, Developer, Viewer} && f.roleOk && f.storeOk && Host(s, orgId, inviter))
    && (r.Ok? ==>
          && r.value == token
          && s' == s.(invites := s'.invites, cache := s'.cache)
          && s'.invites == s.invites[token := Invite(orgId, inviter, email, role, s.now, s.now + 86_400_000, false)]
          && s'.cache == if f.cacheOk then s.cache[token := Payload(orgId, role, s.now + 86_400_000)] else s.cache)
    && (r.Err? ==> s' == s)
  }

  lemma SendingInvites(s: State, orgId: string, inviter: string, email: string, emailOk: bool, role: Role,
                       token: string, f: IssueFate)
    requires Inv(s) && token !in s.invites
    ensures var (s', r) := SendInvite(s, orgId, inviter, email, emailOk, role, token, f);
            Inv(s') && InviteSent(s, s', r, orgId, inviter, email, emailOk, role, token, f)
  {
    if SendInvite(s, orgId, inviter, email, emailOk, role, token, f).1.Ok? {
      InsertInviteKeeps(s, orgId, inviter, email, role, token, f.cacheOk);
    }
  }

  /** Who can make a code: a new one, which makes whoever uses it a developer. */
  ghost predicate CodeMade(s: State, s': State, r: Result<string, Failure>, orgId: string, creator: string,
                           code: string, f: IssueFate)
  {
    && Screened(s, FailureOf(r), orgId, creator, f)
    && (r.Ok? <==> f.roleOk && f.storeOk && Host(s, orgId, creator) && code !in s.codes)
    && (r.Ok? ==> r.value == code && s' == s.(codes := s.codes[code := Code(orgId, creator, Developer, true)]))
    && (r.Err? ==> s' == s)
  }

  lemma GeneratingMakes(s: State, orgId: string, creator: string, code: string, f: IssueFate)
    requires Inv(s)
    ensures var (s', r) := GenerateCode(s, orgId, creator, code, f);
            Inv(s') && CodeMade(s, s', r, orgId, creator, code, f)
  {
    if GenerateCode(s, orgId, creator, code, f).1.Ok? { InsertCodeKeeps(s, orgId, creator, code); }
  }

  /** The invite is there, nobody has been marked as having used it, and its time is not over. */
  predicate Open(s: State, token: string) {
    token != "" && token in s.invites && !s.invites[token].accepted && s.now <= s.invites[token].expiresAt
  }

  /**
   * Whom a join by invite lets in: with every access working, exactly who presents an open invite to an organisation
   * they are not in yet; with the invite's role, and using the invite up.
   */
  ghost predicate JoinedByInvite(s: State, s': State, r: Result<Role, Failure>, userId: string, token: string,
                                 f: JoinFate)
  {
    var known := f.readOk && token != "" && token in s.invites;
    var open := f.readOk && Open(s, token);
    var newcomer := open && f.roleOk && (s.invites[token].orgId, userId) !in s.members;
    && (r == Err(InviteNotFound) <==> token == "" || (f.readOk && token !in s.invites))
    && (r == Err(InviteAlreadyAccepted) <==> known && s.invites[token].accepted)
    && (r == Err(InviteExpired) <==> known && !s.invites[token].accepted && s.now > s.invites[token].expiresAt)
    && (r == Err(AlreadyOrgMember) <==> open && f.roleOk && (s.invites[token].orgId, userId) in s.members)
    && (r.Ok? <==> newcomer && f.addOk && f.markOk && f.orgOk)
    && (r.Ok? ==> r.value == s.invites[token].role)
    && (r.Err? ==> r.error in {InviteNotFound, InviteAlreadyAccepted, InviteExpired, AlreadyOrgMember, StoreError})
    && s' == s.(members := s'.members, order := s'.order, invites := s'.invites, cache := s'.cache)
    && (if newcomer && f.addOk
        then var invite := s.invites[token];
             && s'.members == s.members[(invite.orgId, userId) :=
                                          Member(invite.role, s.order, ByInvite(token), s.now, s.now)]
             && s'.order == s.order + 1
        else s'.members == s.members && s'.order == s.order)
    && (if newcomer && f.addOk && f.markOk
        then && s'.invites == s.invites[token := s.invites[token].(accepted := true)]
             && s'.cache == if f.cacheOk then s.cache - {token} else s.cache
        else s'.invites == s.invites && s'.cache == s.cache)
  }

  lemma FinishKeeps(s: State, read: Result<Join, Failure>, f: JoinFate)
    requires Inv(s) && (read.Ok? ==> JoinOk(s, read.value))
    ensures Inv(Finish(s, read, f).0)
  {
    if read.Ok? {
      AddMemberKeeps(s, read.value);
      if read.value.via.ByInvite? {
        MarkAcceptedKeeps(AddMember(s, read.value).0, read.value.via.token, f.cacheOk);
      }
    }
  }

  lemma InviteJoins(s: State, userId: string, token: string, f: JoinFate)
    requires Inv(s)
    ensures var (s', r) := Finish(s, LookUpInvite(s, userId, token, f), f);
            Inv(s') && JoinedByInvite(s, s', r, userId, token, f)
  {
    assert token in s.cache ==> CopyOk(s, token);
    ReadsAreRight(s, userId, token, "", f.cacheOk);
    FinishKeeps(s, LookUpInvite(s, userId, token, f), f);
  }

  /** The same for a join by code, which can be used any number of times. */
  ghost predicate JoinedByCode(s: State, s': State, r: Result<Role, Failure>, userId: string, code: string, f: JoinFate)
  {
    var known := f.readOk && code != "" && code in s.codes;
    var newcomer := known && s.codes[code].active && f.roleOk && (s.codes[code].orgId, userId) !in s.members;
    && (r == Err(InviteCodeNotFound) <==> code == "" || (f.readOk && code !in s.codes))
    && (r == Err(InviteCodeInactive) <==> known && !s.codes[code].active)
    && (r == Err(AlreadyOrgMember) <==>
          known && s.codes[code].active && f.roleOk && (s.codes[code].orgId, userId) in s.members)
    && (r.Ok? <==> newcomer && f.addOk && f.orgOk)
    && (r.Ok? ==> r.value == s.codes[code].role)
    && (r.Err? ==> r.error in {InviteCodeNotFound, InviteCodeInactive, AlreadyOrgMember, StoreError})
    && s' == s.(members := s'.members, order := s'.order)
    && (if newcomer && f.addOk
        then var place := (s.codes[code].orgId, userId);
             && s'.members == s.members[place := Member(s.codes[code].role, s.order, ByCode(code), s.now, s.now)]
             && s'.order == s.order + 1
        else s'.members == s.members && s'.order == s.order)
  }

  lemma CodeJoins(s: State, userId: string, code: string, f: JoinFate)
    requires Inv(s)
    ensures var (s', r) := Finish(s, LookUpCode(s, userId, code, f), f);
            Inv(s') && JoinedByCode(s, s', r, userId, code, f)
  {
    ReadsAreRight(s, userId, "", code, false);
    FinishKeeps(s, LookUpCode(s, userId, code, f), f);
  }

  class OrgManager {
    var now: nat
    var orgs: map<string, string>
    var members: map<Place, Member>
    var invites: map<string, Invite>
    var codes: map<string, Code>
    var cache: map<string, Payload>
    var order: nat

    function Snapshot(): State
      reads this
    {
      State(now, orgs, members, invites, codes, cache, map[], map[], order)
    }

    ghost predicate Valid()
      reads this
    {
      Inv(Snapshot())
    }

    constructor ()
      ensures Valid() && Snapshot() == Init
    {
      now, orgs, members, invites, codes, cache, order := 0, map[], map[], map[], map[], map[], 0;
    }

    method CreateOrganization(orgId: string, userId: string, name: string) returns (r: Result<Role, Failure>)
      requires Valid() && orgId !in orgs
      modifies this
      ensures (Snapshot(), r) == CreateOrg(old(Snapshot()), orgId, userId, name)
      ensures OrgCreated(old(Snapshot()), Snapshot(), r, orgId, userId, name)
      ensures Valid()
    {
      CreateOrgKeeps(Snapshot(), orgId, userId, name);
      if name == "" {
        return Err(InvalidOrgName);
      }
      orgs := orgs[orgId := userId];
      members := members[(orgId, userId) := Member(Owner, order, Founder, now, now)];
      order := order + 1;
      return Ok(Owner);
    }

    method SendEmailInvite(orgId: string, invitedBy: string, email: string, emailOk: bool, role: Role, token: string,
                           f: IssueFate)
      returns (r: Result<string, Failure>)
      requires Valid() && token !in invites
      modifies this
      ensures (Snapshot(), r) == SendInvite(old(Snapshot()), orgId, invitedBy, email, emailOk, role, token, f)
      ensures InviteSent(old(Snapshot()), Snapshot(), r, orgId, invitedBy, email, emailOk, role, token, f)
      ensures Valid()
    {
      SendingInvites(Snapshot(), orgId, invitedBy, email, emailOk, role, token, f);
      if !emailOk {
        return Err(InvalidEmail);
      }
      if role.Owner? {
        return Err(InvalidInviteRole);
      }
      if !f.roleOk {
        return Err(StoreError);
      }
      if (orgId, invitedBy) !in members {
        return Err(NotOrgMember);
      }
      if !IsAdmin(members[(orgId, invitedBy)].role) {
        return Err(InsufficientPermissions);
      }
      if !f.storeOk {
        return Err(StoreError);
      }
      var expiresAt := now + INVITE_TTL;
      invites := invites[token := Invite(orgId, invitedBy, email, role, now, expiresAt, false)];
      if f.cacheOk {
        cache := cache[token := Payload(orgId, role, now + INVITE_TTL)];
      }
      return Ok(token);
    }

    method GenerateInviteCode(orgId: string, createdBy: string, code: string, f: IssueFate)
      returns (r: Result<string, Failure>)
      requires Valid()
      modifies this`codes
      ensures (Snapshot(), r) == GenerateCode(old(Snapshot()), orgId, createdBy, code, f)
      ensures CodeMade(old(Snapshot()), Snapshot(), r, orgId, createdBy, code, f)
      ensures Valid()
    {
      GeneratingMakes(Snapshot(), orgId, createdBy, code, f);
      if !f.roleOk {
        return Err(StoreError);
      }
      if (orgId, createdBy) !in members {
        return Err(NotOrgMember);
      }
      if !IsAdmin(members[(orgId, createdBy)].role) {
        return Err(InsufficientPermissions);
      }
      if !f.storeOk || code in codes {
        return Err(StoreError);
      }
      codes := codes[code := Code(orgId, createdBy, Developer, true)];
      return Ok(code);
    }

    method AddOrgMember(j: Join)
      requires (j.orgId, j.userId) !in members
      modifies this`members, this`order
      ensures Snapshot() == AddMember(old(Snapshot()), j).0
    {
      members := members[(j.orgId, j.userId) := Member(j.role, order, j.via, j.readAt, now)];
      order := order + 1;
    }

    /** Marks the invite and drops its cached copy. */
    method MarkInviteAccepted(token: string, cacheOk: bool)
      requires token in invites
      modifies this`invites, this`cache
      ensures Snapshot() == MarkAccepted(old(Snapshot()), token, cacheOk)
    {
      invites := invites[token := invites[token].(accepted := true)];
      if cacheOk {
        cache := cache - {token};
      }
    }

    /** The look-ups of `JoinViaToken`: organisation and role from the cached copy if there is one, then the row. */
    method FindInvite(userId: string, token: string, f: JoinFate) returns (r: Result<Join, Failure>)
      ensures r == LookUpInvite(Snapshot(), userId, token, f)
    {
      if token == "" {
        return Err(InviteNotFound);
      }
      if !f.readOk {
        return Err(StoreError);
      }
      if token !in invites {
        return Err(InviteNotFound);
      }
      var invite := invites[token];
      var orgId, role := invite.orgId, invite.role;
      if f.cacheOk && token in cache && now < cache[token].expires {
        orgId, role := cache[token].orgId, cache[token].role;
      }
      if invite.accepted {
        return Err(InviteAlreadyAccepted);
      }
      if now > invite.expiresAt {
        return Err(InviteExpired);
      }
      return Ok(Join(userId, orgId, role, ByInvite(token), now, Checking));
    }

    method JoinViaToken(userId: string, token: string, f: JoinFate) returns (r: Result<Role, Failure>)
      requires Valid()
      modifies this
      ensures (Snapshot(), r) == Finish(old(Snapshot()), LookUpInvite(old(Snapshot()), userId, token, f), f)
      ensures JoinedByInvite(old(Snapshot()), Snapshot(), r, userId, token, f)
      ensures Valid()
    {
      InviteJoins(Snapshot(), userId, token, f);
      var found := FindInvite(userId, token, f);
      if found.Err? {
        return Err(found.error);
      }
      var join := found.value;
      if !f.roleOk {
        return Err(StoreError);
      }
      if (join.orgId, join.userId) in members {
        return Err(AlreadyOrgMember);
      }
      if !f.addOk {
        return Err(StoreError);
      }
      AddOrgMember(join);
      if !f.markOk {
        return Err(StoreError);
      }
      MarkInviteAccepted(token, f.cacheOk);
      if !f.orgOk {
        return Err(StoreError);
      }
      return Ok(join.role);
    }

    method JoinViaCode(userId: string, code: string, f: JoinFate) returns (r: Result<Role, Failure>)
      requires Valid()
      modifies this
      ensures (Snapshot(), r) == Finish(old(Snapshot()), LookUpCode(old(Snapshot()), userId, code, f), f)
      ensures JoinedByCode(old(Snapshot()), Snapshot(), r, userId, code, f)
      ensures Valid()
    {
      CodeJoins(Snapshot(), userId, code, f);
      if code == "" {
        return Err(InviteCodeNotFound);
      }
      if !f.readOk {
        return Err(StoreError);
      }
      if code !in codes {
        return Err(InviteCodeNotFound);
      }
      var inviteCode := codes[code];
      if !inviteCode.active {
        return Err(InviteCodeInactive);
      }
      if !f.roleOk {
        return Err(StoreError);
      }
      if (inviteCode.orgId, userId) in members {
        return Err(AlreadyOrgMember);
      }
      if !f.addOk {
        return Err(StoreError);
      }
      AddOrgMember(Join(userId, inviteCode.orgId, inviteCode.role, ByCode(code), now, Checking));
      if !f.orgOk {
        return Err(StoreError);
      }
      return Ok(inviteCode.role);
    }
  }
}
