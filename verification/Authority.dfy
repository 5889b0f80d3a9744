/** Who may do what to a filesystem: grants, revocations, shares and the events that record them. */
module Authority {
  import opened Wrappers
  import opened Ordering
  import opened Strings
  import opened Versions
  import opened Glob

  type AgentId = string
  type FsId = string
  type GrantId = string
  type ShareId = string

  datatype Capability = Read | Commit | Manage | Propose

  datatype Role = Owner | Reader | Writer | Manager | Contributor

  function Capabilities(role: Role): set<Capability> {
    match role
    case Owner => {Read, Commit, Manage, Propose}
    case Reader => {Read}
    case Writer => {Read, Commit}
    case Manager => {Read, Manage}
    case Contributor => {Read, Propose}
  }

  datatype Filesystem = Filesystem(id: FsId, name: string, owner: AgentId, createdAt: int)

  datatype Grant = Grant(
    id: GrantId,
    fs: FsId,
    agent: AgentId,
    role: Role,
    capabilities: set<Capability>,
    scopes: Option<seq<Scope>>,
    grantedBy: AgentId,
    createdAt: int,
    revokedAt: Option<int>,
    revokedBy: Option<AgentId>)
  {
    predicate Active() {
      revokedAt.None?
    }
  }

  datatype Share = Share(
    id: ShareId,
    fs: FsId,
    target: AgentId,
    grant: GrantId,
    role: Role,
    createdBy: AgentId,
    createdAt: int,
    expiresAt: Option<int>,
    acceptedAt: Option<int>,
    revokedAt: Option<int>)

  datatype EventKind = FsCreated | GrantCreated | GrantRevoked

  datatype EventRow = EventRow(fs: FsId, number: nat, kind: EventKind, actor: AgentId, subject: string)

  datatype State = State(
    agents: set<AgentId>,
    filesystems: map<FsId, Filesystem>,
    grants: map<GrantId, Grant>,
    shares: map<ShareId, Share>,
    events: seq<EventRow>)

  datatype AuthorityError =
    | EmptyName
    | DuplicateName
    | DuplicateId
    | UnknownFs
    | UnknownAgent
    | UnknownShare
    | InvalidPathScope
    | PathScopeDenied
    | GrantDenied

  // ----- Reading -----

  predicate OlderGrant(a: Grant, b: Grant) {
    a.createdAt < b.createdAt || (a.createdAt == b.createdAt && StringLe(a.id, b.id))
  }

  lemma OlderGrantIsPreorder()
    ensures Preorder(OlderGrant)
  {
    StringLeIsPreorder();
  }

  function GrantsOf(ids: seq<GrantId>, grants: map<GrantId, Grant>, fs: FsId): seq<Grant>
    requires forall id :: id in ids ==> id in grants
  {
    if ids == [] then []
    else
      (if grants[ids[0]].fs == fs then [grants[ids[0]]] else []) + GrantsOf(ids[1..], grants, fs)
  }

  /** A filesystem's grants, oldest first. */
  function ListGrants(s: State, fs: FsId): seq<Grant> {
    OlderGrantIsPreorder();
    Sort(OlderGrant, GrantsOf(SortedStrings(s.grants.Keys), s.grants, fs))
  }

  function First(list: seq<Grant>, p: Grant -> bool): (r: Option<Grant>)
    ensures r.Some? ==> r.value in list && p(r.value)
    ensures r.None? ==> forall g :: g in list ==> !p(g)
  {
    if list == [] then None
    else
      assert list == [list[0]] + list[1..];
      if p(list[0]) then Some(list[0]) else First(list[1..], p)
  }

  function Held(agent: AgentId): Grant -> bool {
    (g: Grant) => g.agent == agent && g.Active()
  }

  function HeldWith(agent: AgentId, capability: Capability): Grant -> bool {
    (g: Grant) => g.agent == agent && g.Active() && capability in g.capabilities
  }

  function ActiveRole(s: State, fs: Filesystem, agent: AgentId): Option<Role> {
    if fs.owner == agent then Some(Owner)
    else match First(ListGrants(s, fs.id), Held(agent))
      case Some(g) => Some(g.role)
      case None => None
  }

  datatype Authorization =
    | AsOwner(agent: AgentId)
    | AsGrant(grant: GrantId, role: Role, scopes: Option<seq<Scope>>, matched: Option<seq<Scope>>)

  function AuthorizeCapability(s: State, fs: Filesystem, agent: AgentId,
      capability: Capability): Result<Authorization, AuthorityError> {
    if fs.owner == agent && capability in Capabilities(Owner) then Ok(AsOwner(agent))
    else match First(ListGrants(s, fs.id), HeldWith(agent, capability))
      case Some(g) => Ok(AsGrant(g.id, g.role, g.scopes, None))
      case None => Err(GrantDenied)
  }

  /** The first grant with the capability that is unscoped, or whose scopes match every path. */
  function AuthorizePathsAlong(list: seq<Grant>, agent: AgentId, capability: Capability, paths: seq<Path>,
      denied: bool): Result<Authorization, AuthorityError> {
    if list == [] then Err(if denied then PathScopeDenied else GrantDenied)
    else if !HeldWith(agent, capability)(list[0]) then AuthorizePathsAlong(list[1..], agent, capability, paths, denied)
    else match list[0].scopes
      case None => Ok(AsGrant(list[0].id, list[0].role, None, None))
      case Some(scopes) =>
        match MatchedAlong(paths, scopes, [])
        case Some(matched) => Ok(AsGrant(list[0].id, list[0].role, Some(scopes), Some(matched)))
        case None => AuthorizePathsAlong(list[1..], agent, capability, paths, true)
  }

  function AuthorizePaths(s: State, fs: Filesystem, agent: AgentId, capability: Capability,
      paths: seq<Path>): Result<Authorization, AuthorityError> {
    if fs.owner == agent && capability in Capabilities(Owner) then Ok(AsOwner(agent))
    else AuthorizePathsAlong(ListGrants(s, fs.id), agent, capability, paths, false)
  }

  // ----- Writing -----

  function MaxNumber(events: seq<EventRow>, fs: FsId): nat {
    if events == [] then 0
    else
      var before, last := MaxNumber(events[..|events| - 1], fs), events[|events| - 1];
      if last.fs == fs && last.number > before then last.number else before
  }

  /** An event that brings a number keeps it; number zero asks for the filesystem's next one. */
  function Numbered(events: seq<EventRow>, event: EventRow): EventRow {
    if event.number > 0 then event else event.(number := MaxNumber(events, event.fs) + 1)
  }

  function AddEvent(s: State, fs: FsId, kind: EventKind, actor: AgentId, subject: string): State {
    s.(events := s.events + [Numbered(s.events, EventRow(fs, 0, kind, actor, subject))])
  }

  function WithGrant(s: State, g: Grant): Result<State, AuthorityError> {
    if g.id in s.grants then Err(DuplicateId) else Ok(s.(grants := s.grants[g.id := g]))
  }

  function NewGrant(id: GrantId, fs: FsId, agent: AgentId, role: Role, scopes: Option<seq<Scope>>, grantedBy: AgentId,
      now: int): Grant {
    Grant(id, fs, agent, role, Capabilities(role), scopes, grantedBy, now, None, None)
  }

  function Revoked(g: Grant, actor: AgentId, now: int): Grant {
    g.(revokedAt := Some(now), revokedBy := Some(actor))
  }

  function RevokeOne(s: State, g: Grant, actor: AgentId, now: int): State {
    AddEvent(s.(grants := s.grants[g.id := Revoked(g, actor, now)]), g.fs, GrantRevoked, actor, g.id)
  }

  function RevokeAll(s: State, list: seq<Grant>, actor: AgentId, now: int): Result<State, AuthorityError>
    decreases |list|
  {
    if list == [] then Ok(s)
    else if list[0].role == Owner then Err(GrantDenied)
    else RevokeAll(RevokeOne(s, list[0], actor, now), list[1..], actor, now)
  }

  function Filter(list: seq<Grant>, p: Grant -> bool): (r: seq<Grant>)
    ensures forall g :: g in r <==> g in list && p(g)
  {
    if list == [] then []
    else
      assert list == [list[0]] + list[1..];
      (if p(list[0]) then [list[0]] else []) + Filter(list[1..], p)
  }

  /** An agent's active grants on a filesystem. */
  function Targets(s: State, fs: FsId, target: AgentId): seq<Grant> {
    Filter(ListGrants(s, fs), Held(target))
  }

  predicate ValidScope(scope: Scope) {
    var bare := TrimSpace(scope);
    && bare != "" && !StartsWith(bare, "/")
    && !ReservedScope(bare)
    && forall segment | segment in Split(bare, '/') :: segment != "" && segment != ".."
  }

  predicate ReservedScope(scope: Scope) {
    var trimmed := Trim(scope, '/');
    trimmed == ".section" || StartsWith(trimmed, ".section/")
  }

  predicate ValidScopes(scopes: Option<seq<Scope>>) {
    scopes.Some? ==> scopes.value != [] && forall scope :: scope in scopes.value ==> ValidScope(scope)
  }

  function AfterCreate(s: State, id: FsId, name: string, owner: AgentId, grantId: GrantId,
      now: int): Result<State, AuthorityError> {
    var bare := TrimSpace(name);
    if bare == "" then Err(EmptyName)
    else if exists other :: other in s.filesystems && s.filesystems[other].name == bare then Err(DuplicateName)
    else if id in s.filesystems then Err(DuplicateId)
    else
      match WithGrant(s.(filesystems := s.filesystems[id := Filesystem(id, bare, owner, now)]), NewGrant(grantId, id, owner, Owner, None, owner, now))
      case Err(e) => Err(e)
      case Ok(next) => Ok(AddEvent(next, id, FsCreated, owner, id))
  }

  /** The checks before a grant, in order. */
  function MayGrant(s: State, fsId: FsId, actor: AgentId, target: AgentId, role: Role,
      scopes: Option<seq<Scope>>): Option<AuthorityError> {
    if !ValidScopes(scopes) then Some(InvalidPathScope)
    else if role == Owner then Some(GrantDenied)
    else if target !in s.agents then Some(UnknownAgent)
    else if fsId !in s.filesystems then Some(UnknownFs)
    else
      var fs := s.filesystems[fsId];
      if AuthorizeCapability(s, fs, actor, Manage).Err? then Some(AuthorizeCapability(s, fs, actor, Manage).error)
      else if actor == target && Commit in Capabilities(role) && AuthorizeCapability(s, fs, actor, Commit).Err? then Some(GrantDenied)
      else if target == fs.owner then Some(GrantDenied)
      else None
  }

  function AfterGrant(s: State, fsId: FsId, actor: AgentId, target: AgentId, role: Role, scopes: Option<seq<Scope>>,
      grantId: GrantId, now: int): Result<State, AuthorityError> {
    var refused := MayGrant(s, fsId, actor, target, role, scopes);
    if refused.Some? then Err(refused.value)
    else match RevokeAll(s, Targets(s, fsId, target), actor, now)
      case Err(e) => Err(e)
      case Ok(revoked) =>
        match WithGrant(revoked, NewGrant(grantId, fsId, target, role, scopes, actor, now))
        case Err(e) => Err(e)
        case Ok(next) => Ok(AddEvent(next, fsId, GrantCreated, actor, grantId))
  }

  function AfterRevoke(s: State, fsId: FsId, actor: AgentId, target: AgentId, now: int): Result<State, AuthorityError> {
    if fsId !in s.filesystems then Err(UnknownFs)
    else
      var fs := s.filesystems[fsId];
      if AuthorizeCapability(s, fs, actor, Manage).Err? then Err(AuthorizeCapability(s, fs, actor, Manage).error)
      else if target == fs.owner then Err(GrantDenied)
      else
        var list := Targets(s, fsId, target);
        match RevokeAll(s, list, actor, now)
        case Err(e) => Err(e)
        case Ok(next) => if list == [] then Err(GrantDenied) else Ok(next)
  }

  function AfterShare(s: State, fsId: FsId, actor: AgentId, target: AgentId, shareId: ShareId,
      now: int): Result<State, AuthorityError> {
    if target !in s.agents then Err(UnknownAgent)
    else if fsId !in s.filesystems then Err(UnknownFs)
    else
      var fs := s.filesystems[fsId];
      if AuthorizeCapability(s, fs, actor, Manage).Err? then Err(AuthorizeCapability(s, fs, actor, Manage).error)
      else match First(ListGrants(s, fsId), HeldWith(target, Read))
        case None => Err(GrantDenied)
        case Some(g) =>
          if shareId in s.shares then Err(DuplicateId)
          else Ok(s.(shares := s.shares[shareId := Share(shareId, fsId, target, g.id, g.role, actor, now, None, None, None)]))
  }

  function Backing(grant: GrantId): Grant -> bool {
    (g: Grant) => g.id == grant && g.Active()
  }

  function AfterAccept(s: State, shareId: ShareId, agent: AgentId, now: int): Result<State, AuthorityError> {
    if shareId !in s.shares then Err(UnknownShare)
    else
      var share := s.shares[shareId];
      if share.target != agent || share.revokedAt.Some? || (share.expiresAt.Some? && share.expiresAt.value <= now) then Err(GrantDenied)
      else if share.fs !in s.filesystems then Err(UnknownFs)
      else
        var fs := s.filesystems[share.fs];
        if AuthorizeCapability(s, fs, agent, Read).Err? then Err(AuthorizeCapability(s, fs, agent, Read).error)
        else match First(ListGrants(s, share.fs), Backing(share.grant))
          case None => Err(GrantDenied)
          case Some(g) =>
            if Read !in g.capabilities then Err(GrantDenied)
            else if share.acceptedAt.Some? then Ok(s)
            else Ok(s.(shares := s.shares[shareId := share.(acceptedAt := Some(now))]))
  }

  // ----- Runs -----

  datatype Request =
    | AddAgent(agent: AgentId)
    | DoCreate(id: FsId, name: string, owner: AgentId, grantId: GrantId, now: int)
    | DoGrant(fs: FsId, actor: AgentId, target: AgentId, role: Role, scopes: Option<seq<Scope>>, grantId: GrantId, now: int)
    | DoRevoke(fs: FsId, actor: AgentId, target: AgentId, now: int)
    | DoShare(fs: FsId, actor: AgentId, target: AgentId, shareId: ShareId, now: int)
    | DoAccept(share: ShareId, agent: AgentId, now: int)

  function Answer(s: State, request: Request): Result<State, AuthorityError> {
    match request
    case AddAgent(agent) => Ok(s.(agents := s.agents + {agent}))
    case DoCreate(id, name, owner, grantId, now) => AfterCreate(s, id, name, owner, grantId, now)
    case DoGrant(fs, actor, target, role, scopes, grantId, now) => AfterGrant(s, fs, actor, target, role, scopes, grantId, now)
    case DoRevoke(fs, actor, target, now) => AfterRevoke(s, fs, actor, target, now)
    case DoShare(fs, actor, target, shareId, now) => AfterShare(s, fs, actor, target, shareId, now)
    case DoAccept(share, agent, now) => AfterAccept(s, share, agent, now)
  }

  /** A refused request leaves no trace. */
  function Handle(s: State, request: Request): State {
    match Answer(s, request)
    case Ok(next) => next
    case Err(_) => s
  }

  function Empty(): State {
    State({}, map[], map[], map[], [])
  }

  function Served(requests: seq<Request>): State {
    if requests == [] then Empty() else Handle(Served(requests[..|requests| - 1]), requests[|requests| - 1])
  }

  // ----- What every run keeps -----

  function EventsOf(events: seq<EventRow>, fs: FsId): seq<EventRow> {
    if events == [] then []
    else
      var last := events[|events| - 1];
      EventsOf(events[..|events| - 1], fs) + (if last.fs == fs then [last] else [])
  }

  ghost predicate NumberedFromOne(events: seq<EventRow>, fs: FsId) {
    var mine := EventsOf(events, fs);
    forall i :: 0 <= i < |mine| ==> mine[i].number == i + 1
  }

  ghost predicate GrantOk(s: State, id: GrantId)
    requires id in s.grants
  {
    var g := s.grants[id];
    && g.id == id && g.fs in s.filesystems && g.capabilities == Capabilities(g.role)
    && (g.role == Owner <==> g.agent == s.filesystems[g.fs].owner)
    && (g.role == Owner ==> g.Active())
  }

  predicate SameHolder(a: Grant, b: Grant) {
    a.Active() && b.Active() && a.fs == b.fs && a.agent == b.agent
  }

  ghost predicate OneActive(s: State) {
    forall a, b :: a in s.grants && b in s.grants && SameHolder(s.grants[a], s.grants[b]) ==> a == b
  }

  ghost predicate IsOwnerGrant(s: State, fs: FsId, id: GrantId) {
    && fs in s.filesystems && id in s.grants
    && s.grants[id].fs == fs && s.grants[id].role == Owner && s.grants[id].agent == s.filesystems[fs].owner
  }

  ghost predicate OwnerHolds(s: State, fs: FsId) {
    fs in s.filesystems && s.filesystems[fs].id == fs && exists id :: IsOwnerGrant(s, fs, id)
  }

  ghost predicate Inv(s: State) {
    && (forall id :: id in s.grants ==> GrantOk(s, id))
    && OneActive(s)
    && (forall fs :: fs in s.filesystems ==> OwnerHolds(s, fs))
    && (forall fs :: NumberedFromOne(s.events, fs))
  }

  lemma {:induction false} MaxOfNumbered(events: seq<EventRow>, fs: FsId)
    requires NumberedFromOne(events, fs)
    ensures MaxNumber(events, fs) == |EventsOf(events, fs)|
  {
    if events != [] {
      var front := events[..|events| - 1];
      var mine, before := EventsOf(events, fs), EventsOf(front, fs);
      assert forall i :: 0 <= i < |before| ==> before[i] == mine[i];
      MaxOfNumbered(front, fs);
      assert events[|events| - 1].fs == fs ==> mine[|before|] == events[|events| - 1];
    }
  }

  /** The number of a new event continues its filesystem's sequence, and no other's is touched. */
  lemma AddEventKeepsNumbers(s: State, fs: FsId, kind: EventKind, actor: AgentId, subject: string)
    requires forall f :: NumberedFromOne(s.events, f)
    ensures forall f :: NumberedFromOne(AddEvent(s, fs, kind, actor, subject).events, f)
  {
    var next := AddEvent(s, fs, kind, actor, subject);
    assert next.events[..|next.events| - 1] == s.events;
    MaxOfNumbered(s.events, fs);
    forall f ensures NumberedFromOne(next.events, f) {
      assert NumberedFromOne(s.events, f);
    }
  }

  lemma AddEventKeepsInv(s: State, fs: FsId, kind: EventKind, actor: AgentId, subject: string)
    requires Inv(s)
    ensures Inv(AddEvent(s, fs, kind, actor, subject))
  {
    hide NumberedFromOne;
    var next := AddEvent(s, fs, kind, actor, subject);
    AddEventKeepsNumbers(s, fs, kind, actor, subject);
    forall id | id in next.grants ensures GrantOk(next, id) {
      assert GrantOk(s, id);
    }
    forall f | f in next.filesystems ensures OwnerHolds(next, f) {
      assert OwnerHolds(s, f);
      var id :| IsOwnerGrant(s, f, id);
      assert IsOwnerGrant(next, f, id);
    }
  }

  /** Owners keep holding while filesystems and owners' grants stay. */
  lemma OwnersKept(s: State, next: State)
    requires forall fs :: fs in s.filesystems ==> OwnerHolds(s, fs)
    requires forall fs :: fs in s.filesystems ==> fs in next.filesystems && next.filesystems[fs] == s.filesystems[fs]
    requires forall id :: id in s.grants && s.grants[id].role == Owner ==> id in next.grants && next.grants[id] == s.grants[id]
    ensures forall fs :: fs in s.filesystems ==> OwnerHolds(next, fs)
  {
    forall fs | fs in s.filesystems ensures OwnerHolds(next, fs) {
      assert OwnerHolds(s, fs);
      var id :| IsOwnerGrant(s, fs, id);
      assert IsOwnerGrant(next, fs, id);
    }
  }

  lemma RevokedTables(s: State, next: State, g: Grant, actor: AgentId, now: int)
    requires Inv(s) && g.id in s.grants && s.grants[g.id] == g && g.role != Owner
    requires next == s.(grants := s.grants[g.id := Revoked(g, actor, now)])
    ensures Inv(next)
  {
    hide NumberedFromOne, OwnerHolds;
    OwnersKept(s, next);
    assert forall id :: id in next.grants ==> GrantOk(next, id) by {
      hide OneActive;
      forall id | id in next.grants ensures GrantOk(next, id) {
        assert GrantOk(s, id);
      }
    }
    assert OneActive(next) by {
      hide GrantOk;
      forall a, b | a in next.grants && b in next.grants && SameHolder(next.grants[a], next.grants[b]) ensures a == b {
        assert SameHolder(s.grants[a], s.grants[b]);
      }
    }
  }

  lemma RevokeKeepsInv(s: State, g: Grant, actor: AgentId, now: int)
    requires Inv(s) && g.id in s.grants && s.grants[g.id] == g && g.role != Owner
    ensures Inv(RevokeOne(s, g, actor, now))
  {
    hide Inv, AddEvent;
    var next := s.(grants := s.grants[g.id := Revoked(g, actor, now)]);
    RevokedTables(s, next, g, actor, now);
    AddEventKeepsInv(next, g.fs, GrantRevoked, actor, g.id);
  }

  /** A new grant, once its holder has no active grant on that filesystem. */
  lemma InsertKeepsInv(s: State, g: Grant)
    requires Inv(s) && g.id !in s.grants && g.fs in s.filesystems && g.capabilities == Capabilities(g.role)
    requires g.role != Owner && g.agent != s.filesystems[g.fs].owner && g.Active()
    requires forall id :: id in s.grants && s.grants[id].fs == g.fs && s.grants[id].agent == g.agent ==> !s.grants[id].Active()
    ensures Inv(s.(grants := s.grants[g.id := g]))
  {
    hide NumberedFromOne, OwnerHolds;
    var next := s.(grants := s.grants[g.id := g]);
    OwnersKept(s, next);
    assert forall id :: id in next.grants ==> GrantOk(next, id) by {
      hide OneActive;
      forall id | id in next.grants ensures GrantOk(next, id) {
        if id != g.id { assert GrantOk(s, id); }
      }
    }
    assert OneActive(next) by {
      hide GrantOk;
      forall a, b | a in next.grants && b in next.grants && SameHolder(next.grants[a], next.grants[b]) ensures a == b {
        assert a in s.grants && b in s.grants ==> SameHolder(s.grants[a], s.grants[b]);
      }
    }
  }

  /** A grant stays as it is, or an active one that is not an owner's is revoked. */
  predicate Weakened(was: Grant, now: Grant) {
    now == was || (was.Active() && was.role != Owner && now == was.(revokedAt := now.revokedAt, revokedBy := now.revokedBy) && !now.Active())
  }

  /** Every earlier grant is still there, as it was or revoked. */
  ghost predicate OnlyRevokes(s: State, next: State) {
    forall id :: id in s.grants ==> id in next.grants && Weakened(s.grants[id], next.grants[id])
  }

  /** Every earlier share is still there, for the same grant. */
  ghost predicate KeepsShares(s: State, next: State) {
    forall id :: id in s.shares ==> id in next.shares && next.shares[id].grant == s.shares[id].grant
  }

  ghost predicate OwnGrant(s: State, g: Grant) {
    g.id in s.grants && s.grants[g.id] == g && g.role != Owner && g.Active()
  }

  ghost predicate OwnGrants(s: State, list: seq<Grant>) {
    forall g :: g in list ==> OwnGrant(s, g)
  }

  /** Only the grants differ, none is added, and exactly those in the list are inactive now. */
  ghost predicate RevokedExactly(s: State, next: State, list: seq<Grant>) {
    && next.filesystems == s.filesystems && next.agents == s.agents && next.shares == s.shares
    && next.grants.Keys == s.grants.Keys
    && OnlyRevokes(s, next)
    && (forall g :: g in list ==> g.id in next.grants && !next.grants[g.id].Active())
  }

  lemma {:induction false} RevokeAllEffect(s: State, list: seq<Grant>, actor: AgentId, now: int)
    requires Inv(s) && OwnGrants(s, list) && Distinct(list)
    ensures RevokeAll(s, list, actor, now).Ok?
    ensures Inv(RevokeAll(s, list, actor, now).value)
    ensures RevokedExactly(s, RevokeAll(s, list, actor, now).value, list)
    decreases |list|
  {
    hide Inv, RevokeOne, Distinct, RevokedExactly;
    if list == [] {
      NothingRevoked(s);
    } else {
      var g, rest := list[0], list[1..];
      var mid := RevokeOne(s, g, actor, now);
      assert g in list && OwnGrant(s, g);
      RevokeKeepsInv(s, g, actor, now);
      RestStaysOwn(s, list, actor, now);
      hide OwnGrants;
      RevokeAllEffect(mid, rest, actor, now);
      RevokeOneWeakens(s, g, actor, now);
      hide RevokeAll;
      RevokedOneMore(s, mid, RevokeAll(mid, rest, actor, now).value, list);
    }
  }

  lemma NothingRevoked(s: State)
    ensures RevokedExactly(s, s, [])
  {
  }

  lemma RevokedOneMore(s: State, mid: State, next: State, list: seq<Grant>)
    requires list != [] && RevokedExactly(s, mid, [list[0]]) && RevokedExactly(mid, next, list[1..])
    ensures RevokedExactly(s, next, list)
  {
    WeakenedTwice(s, mid, next);
    var g := list[0];
    assert list == [g] + list[1..] && g in [g];
    assert Weakened(mid.grants[g.id], next.grants[g.id]);
  }

  lemma RevokeOneWeakens(s: State, g: Grant, actor: AgentId, now: int)
    requires OwnGrant(s, g)
    ensures RevokedExactly(s, RevokeOne(s, g, actor, now), [g])
  {
  }

  lemma WeakenedTwice(s: State, mid: State, next: State)
    requires OnlyRevokes(s, mid) && OnlyRevokes(mid, next)
    ensures OnlyRevokes(s, next)
  {
    forall id | id in s.grants ensures id in next.grants && Weakened(s.grants[id], next.grants[id]) {
      assert Weakened(s.grants[id], mid.grants[id]);
      assert Weakened(mid.grants[id], next.grants[id]);
    }
  }

  lemma RestDistinct(list: seq<Grant>)
    requires list != [] && Distinct(list)
    ensures Distinct(list[1..]) && list[0] !in list[1..]
  {
    var rest := list[1..];
    forall i, j | 0 <= i < j < |rest| ensures rest[i] != rest[j] {
      assert list[i + 1] != list[j + 1];
    }
    forall j | 0 <= j < |rest| ensures rest[j] != list[0] {
      assert list[j + 1] != list[0];
    }
  }

  lemma RestStaysOwn(s: State, list: seq<Grant>, actor: AgentId, now: int)
    requires list != [] && OwnGrants(s, list) && Distinct(list)
    ensures Distinct(list[1..]) && OwnGrants(RevokeOne(s, list[0], actor, now), list[1..])
  {
    RestDistinct(list);
    forall g | g in list[1..] ensures OwnGrant(RevokeOne(s, list[0], actor, now), g) {
      assert g in list && OwnGrant(s, g) && OwnGrant(s, list[0]);
    }
  }

  // ----- Listing -----

  lemma {:induction false} GrantsOfMeaning(ids: seq<GrantId>, grants: map<GrantId, Grant>, fs: FsId)
    requires Distinct(ids) && forall id :: id in ids ==> id in grants && grants[id].id == id
    ensures Distinct(GrantsOf(ids, grants, fs))
    ensures forall g :: g in GrantsOf(ids, grants, fs) <==> g.id in ids && grants[g.id] == g && g.fs == fs
  {
    if ids != [] {
      var rest := ids[1..];
      assert ids == [ids[0]] + rest;
      assert Distinct(rest) && ids[0] !in rest by {
        forall i, j | 0 <= i < j < |rest| ensures rest[i] != rest[j] {
          assert ids[i + 1] != ids[j + 1];
        }
        forall j | 0 <= j < |rest| ensures rest[j] != ids[0] {
          assert ids[j + 1] != ids[0];
        }
      }
      GrantsOfMeaning(rest, grants, fs);
    }
  }

  ghost predicate ListedIn(s: State, fs: FsId, g: Grant) {
    g.id in s.grants && s.grants[g.id] == g && g.fs == fs
  }

  /** The list holds each grant of the filesystem once. */
  lemma ListMeaning(s: State, fs: FsId)
    requires Inv(s)
    ensures Distinct(ListGrants(s, fs))
    ensures forall g :: g in ListGrants(s, fs) <==> ListedIn(s, fs, g)
  {
    OlderGrantIsPreorder();
    var ids := SortedStrings(s.grants.Keys);
    forall id | id in ids ensures s.grants[id].id == id {
      assert GrantOk(s, id);
    }
    hide Inv, OlderGrant, Preorder, SortedStrings;
    GrantsOfMeaning(ids, s.grants, fs);
    SortDistinct(OlderGrant, GrantsOf(ids, s.grants, fs));
  }

  lemma {:induction false} FilterDistinct(list: seq<Grant>, p: Grant -> bool)
    requires Distinct(list)
    ensures Distinct(Filter(list, p))
  {
    if list != [] {
      RestDistinct(list);
      FilterDistinct(list[1..], p);
    }
  }

  /** A target's active grants are never the owner's. */
  lemma TargetsAreOwnGrants(s: State, fs: FsId, target: AgentId)
    requires Inv(s) && fs in s.filesystems && target != s.filesystems[fs].owner
    ensures OwnGrants(s, Targets(s, fs, target)) && Distinct(Targets(s, fs, target))
    ensures forall g :: g in Targets(s, fs, target) <==> ListedIn(s, fs, g) && Held(target)(g)
  {
    ListMeaning(s, fs);
    FilterDistinct(ListGrants(s, fs), Held(target));
    hide NumberedFromOne, OneActive, ListGrants, OwnerHolds;
    forall g | g in Targets(s, fs, target) ensures OwnGrant(s, g) {
      assert GrantOk(s, g.id);
    }
  }

  ghost predicate HoldsNone(s: State, fs: FsId, agent: AgentId) {
    forall id :: id in s.grants && s.grants[id].fs == fs && s.grants[id].agent == agent ==> !s.grants[id].Active()
  }

  /** With its listed grants revoked, the target holds none. */
  lemma RevokedHoldsNone(s: State, next: State, fs: FsId, target: AgentId, list: seq<Grant>)
    requires forall id :: id in s.grants ==> s.grants[id].id == id
    requires forall g :: g in list <==> ListedIn(s, fs, g) && Held(target)(g)
    requires RevokedExactly(s, next, list)
    ensures HoldsNone(next, fs, target)
  {
    forall id | id in next.grants && next.grants[id].fs == fs && next.grants[id].agent == target ensures !next.grants[id].Active() {
      assert Weakened(s.grants[id], next.grants[id]);
      if s.grants[id].Active() {
        assert ListedIn(s, fs, s.grants[id]) && s.grants[id] in list;
      }
    }
  }

  lemma Keyed(s: State)
    requires Inv(s)
    ensures forall id :: id in s.grants ==> s.grants[id].id == id
  {
    hide NumberedFromOne;
    forall id | id in s.grants ensures s.grants[id].id == id {
      assert GrantOk(s, id);
    }
  }

  /** Revoking all a target's active grants leaves it none. */
  lemma RevokeTargets(s: State, fs: FsId, target: AgentId, actor: AgentId, now: int)
    requires Inv(s) && fs in s.filesystems && target != s.filesystems[fs].owner
    ensures var r := RevokeAll(s, Targets(s, fs, target), actor, now);
            r.Ok? && Inv(r.value) && RevokedExactly(s, r.value, Targets(s, fs, target)) && HoldsNone(r.value, fs, target)
  {
    hide Inv, Targets, RevokeAll, RevokedExactly, HoldsNone, OwnGrants, Distinct;
    Keyed(s);
    TargetsAreOwnGrants(s, fs, target);
    RevokeAllEffect(s, Targets(s, fs, target), actor, now);
    RevokedHoldsNone(s, RevokeAll(s, Targets(s, fs, target), actor, now).value, fs, target, Targets(s, fs, target));
  }

  // ----- Steps -----

  lemma CreatedTables(s: State, fs: Filesystem, g: Grant, now: int)
    requires Inv(s) && fs.id !in s.filesystems && g.id !in s.grants
    requires g == NewGrant(g.id, fs.id, fs.owner, Owner, None, fs.owner, now)
    ensures Inv(s.(filesystems := s.filesystems[fs.id := fs], grants := s.grants[g.id := g]))
  {
    hide NumberedFromOne, OwnerHolds;
    var next := s.(filesystems := s.filesystems[fs.id := fs], grants := s.grants[g.id := g]);
    OwnersKept(s, next);
    NewOwnerHolds(next, fs, g);
    assert forall id :: id in next.grants ==> GrantOk(next, id) by {
      hide OneActive;
      forall id | id in next.grants ensures GrantOk(next, id) {
        if id != g.id { assert GrantOk(s, id); }
      }
    }
    assert OneActive(next) by {
      forall a | a in s.grants ensures s.grants[a].fs != fs.id {
        assert GrantOk(s, a);
      }
      hide GrantOk;
      forall a, b | a in next.grants && b in next.grants && SameHolder(next.grants[a], next.grants[b]) ensures a == b {
        assert a in s.grants && b in s.grants ==> SameHolder(s.grants[a], s.grants[b]);
      }
    }
  }

  lemma NewOwnerHolds(next: State, fs: Filesystem, g: Grant)
    requires fs.id in next.filesystems && next.filesystems[fs.id] == fs && g.id in next.grants && next.grants[g.id] == g
    requires g.fs == fs.id && g.role == Owner && g.agent == fs.owner
    ensures OwnerHolds(next, fs.id)
  {
    assert IsOwnerGrant(next, fs.id, g.id);
  }

  lemma CreateKeepsInv(s: State, id: FsId, name: string, owner: AgentId, grantId: GrantId, now: int)
    requires Inv(s) && AfterCreate(s, id, name, owner, grantId, now).Ok?
    ensures Inv(AfterCreate(s, id, name, owner, grantId, now).value)
  {
    hide Inv, TrimSpace;
    var fs := Filesystem(id, TrimSpace(name), owner, now);
    var g := NewGrant(grantId, id, owner, Owner, None, owner, now);
    CreatedTables(s, fs, g, now);
    hide AddEvent;
    AddEventKeepsInv(s.(filesystems := s.filesystems[id := fs], grants := s.grants[grantId := g]), id, FsCreated, owner, id);
  }

  /** The checks passed on the state before. */
  ghost predicate Allowed(s: State, fsId: FsId, actor: AgentId, target: AgentId, role: Role) {
    && fsId in s.filesystems && target in s.agents && role != Owner && target != s.filesystems[fsId].owner
    && AuthorizeCapability(s, s.filesystems[fsId], actor, Manage).Ok?
    && (actor == target && Commit in Capabilities(role) ==> AuthorizeCapability(s, s.filesystems[fsId], actor, Commit).Ok?)
  }

  lemma MayGrantMeans(s: State, fsId: FsId, actor: AgentId, target: AgentId, role: Role, scopes: Option<seq<Scope>>)
    requires MayGrant(s, fsId, actor, target, role, scopes) == None
    ensures Allowed(s, fsId, actor, target, role)
  {
    hide AuthorizeCapability, ValidScopes;
  }

  /** Adding the new grant and its event to the tables left by the revocations. */
  lemma GrantTables(s: State, revoked: State, list: seq<Grant>, g: Grant, actor: AgentId)
    requires Inv(revoked) && RevokedExactly(s, revoked, list) && HoldsNone(revoked, g.fs, g.agent)
    requires g.id !in s.grants && g.fs in s.filesystems && g.capabilities == Capabilities(g.role)
    requires g.role != Owner && g.agent != s.filesystems[g.fs].owner && g.Active()
    ensures var next := AddEvent(revoked.(grants := revoked.grants[g.id := g]), g.fs, GrantCreated, actor, g.id);
            && Inv(next) && next.filesystems == s.filesystems && next.shares == s.shares
            && next.grants.Keys == s.grants.Keys + {g.id} && next.grants[g.id] == g && OnlyRevokes(s, next)
  {
    hide Inv, Weakened;
    InsertKeepsInv(revoked, g);
    AddEventKeepsInv(revoked.(grants := revoked.grants[g.id := g]), g.fs, GrantCreated, actor, g.id);
  }

  /** What a successful grant does: the target's earlier grants are revoked, and the new one is added. */
  lemma GrantEffect(s: State, fsId: FsId, actor: AgentId, target: AgentId, role: Role, scopes: Option<seq<Scope>>,
      grantId: GrantId, now: int)
    requires Inv(s) && AfterGrant(s, fsId, actor, target, role, scopes, grantId, now).Ok?
    ensures var next := AfterGrant(s, fsId, actor, target, role, scopes, grantId, now).value;
            && Inv(next) && Allowed(s, fsId, actor, target, role)
            && next.filesystems == s.filesystems && next.shares == s.shares
            && grantId !in s.grants && next.grants.Keys == s.grants.Keys + {grantId}
            && next.grants[grantId] == NewGrant(grantId, fsId, target, role, scopes, actor, now)
            && OnlyRevokes(s, next)
  {
    hide Inv, MayGrant, RevokeAll, Targets, RevokedExactly, HoldsNone, OnlyRevokes, AddEvent, Allowed;
    MayGrantMeans(s, fsId, actor, target, role, scopes);
    AllowedMeans(s, fsId, actor, target, role);
    RevokeTargets(s, fsId, target, actor, now);
    var revoked := RevokeAll(s, Targets(s, fsId, target), actor, now).value;
    assert revoked.grants.Keys == s.grants.Keys by { RevokedKeys(s, revoked, Targets(s, fsId, target)); }
    GrantTables(s, revoked, Targets(s, fsId, target), NewGrant(grantId, fsId, target, role, scopes, actor, now), actor);
  }

  lemma RevokedKeys(s: State, next: State, list: seq<Grant>)
    requires RevokedExactly(s, next, list)
    ensures next.grants.Keys == s.grants.Keys && next.filesystems == s.filesystems && next.shares == s.shares && OnlyRevokes(s, next)
  {
  }

  lemma AllowedMeans(s: State, fsId: FsId, actor: AgentId, target: AgentId, role: Role)
    requires Allowed(s, fsId, actor, target, role)
    ensures fsId in s.filesystems && role != Owner && target != s.filesystems[fsId].owner
  {
  }

  /** What a successful revocation does: the target had an active grant, and has none now. */
  lemma RevokeEffect(s: State, fsId: FsId, actor: AgentId, target: AgentId, now: int)
    requires Inv(s) && AfterRevoke(s, fsId, actor, target, now).Ok?
    ensures var next := AfterRevoke(s, fsId, actor, target, now).value;
            && Inv(next) && next.filesystems == s.filesystems && next.shares == s.shares
            && next.grants.Keys == s.grants.Keys && OnlyRevokes(s, next)
            && Targets(s, fsId, target) != [] && HoldsNone(next, fsId, target)
  {
    hide Inv, RevokeAll, Targets, RevokedExactly, HoldsNone, OnlyRevokes, AuthorizeCapability;
    RevokeTargets(s, fsId, target, actor, now);
    RevokedKeys(s, RevokeAll(s, Targets(s, fsId, target), actor, now).value, Targets(s, fsId, target));
  }

  lemma OnlySharesChange(s: State, request: Request)
    requires request.AddAgent? || request.DoShare? || request.DoAccept?
    ensures var next := Handle(s, request);
            next.grants == s.grants && next.filesystems == s.filesystems && next.events == s.events && KeepsShares(s, next)
  {
    hide ListGrants, AuthorizeCapability, First, AfterGrant, AfterRevoke, AfterCreate;
  }

  /** Sharing and accepting touch nothing but shares. */
  lemma ShareEffect(s: State, request: Request)
    requires Inv(s) && (request.AddAgent? || request.DoShare? || request.DoAccept?)
    ensures var next := Handle(s, request);
            && Inv(next) && next.grants == s.grants && next.filesystems == s.filesystems && KeepsShares(s, next)
  {
    hide Inv, Handle, KeepsShares;
    OnlySharesChange(s, request);
    SameTablesKeepInv(s, Handle(s, request));
  }

  lemma SameTablesKeepInv(s: State, next: State)
    requires Inv(s) && next.grants == s.grants && next.filesystems == s.filesystems && next.events == s.events
    ensures Inv(next)
  {
    hide NumberedFromOne;
    forall id | id in next.grants ensures GrantOk(next, id) {
      assert GrantOk(s, id);
    }
    forall f | f in next.filesystems ensures OwnerHolds(next, f) {
      assert OwnerHolds(s, f);
      var id :| IsOwnerGrant(s, f, id);
      assert IsOwnerGrant(next, f, id);
    }
  }

  /** Everything a request can do to what was there. */
  lemma StepEffect(s: State, request: Request)
    requires Inv(s)
    ensures var next := Handle(s, request);
            && Inv(next) && OnlyRevokes(s, next) && KeepsShares(s, next)
            && (forall fs :: fs in s.filesystems ==> fs in next.filesystems && next.filesystems[fs] == s.filesystems[fs])
  {
    hide Inv, AfterGrant, AfterRevoke, AfterShare, AfterAccept, AfterCreate;
    if Answer(s, request).Ok? {
      match request
      case DoCreate(id, name, owner, grantId, now) =>
        CreateKeepsInv(s, id, name, owner, grantId, now);
        CreateEffect(s, id, name, owner, grantId, now);
      case DoGrant(fs, actor, target, role, scopes, grantId, now) => GrantEffect(s, fs, actor, target, role, scopes, grantId, now);
      case DoRevoke(fs, actor, target, now) => RevokeEffect(s, fs, actor, target, now);
      case _ => ShareEffect(s, request);
    }
  }

  lemma CreateEffect(s: State, id: FsId, name: string, owner: AgentId, grantId: GrantId, now: int)
    requires AfterCreate(s, id, name, owner, grantId, now).Ok?
    ensures var next := AfterCreate(s, id, name, owner, grantId, now).value;
            && OnlyRevokes(s, next) && next.shares == s.shares
            && id !in s.filesystems && forall fs :: fs in s.filesystems ==> fs in next.filesystems && next.filesystems[fs] == s.filesystems[fs]
  {
    hide TrimSpace;
  }

  lemma {:induction false} RunKeepsInv(requests: seq<Request>)
    ensures Inv(Served(requests))
  {
    hide Handle, Inv;
    if requests == [] {
      EmptyIsFine();
    } else {
      RunKeepsInv(requests[..|requests| - 1]);
      StepEffect(Served(requests[..|requests| - 1]), requests[|requests| - 1]);
    }
  }

  lemma EmptyIsFine()
    ensures Inv(Empty())
  {
    forall fs ensures NumberedFromOne(Empty().events, fs) {
    }
  }

  // ----- Main results -----

  /** In every reachable state an agent holds at most one active grant on a filesystem. */
  lemma AtMostOneActiveGrant(requests: seq<Request>, a: GrantId, b: GrantId)
    requires var s := Served(requests); a in s.grants && b in s.grants && SameHolder(s.grants[a], s.grants[b])
    ensures a == b
  {
    hide Served;
    RunKeepsInv(requests);
  }

  /** The owner of every filesystem holds an active owner's grant on it. */
  lemma OwnerGrantStaysActive(requests: seq<Request>, fs: FsId)
    requires fs in Served(requests).filesystems
    ensures var s := Served(requests);
            exists id :: IsOwnerGrant(s, fs, id) && s.grants[id].Active()
  {
    hide Served, NumberedFromOne;
    RunKeepsInv(requests);
    var s := Served(requests);
    assert OwnerHolds(s, fs);
    var id :| IsOwnerGrant(s, fs, id);
    assert GrantOk(s, id);
  }

  /** Each filesystem's events are numbered 1..n in the order they were written. */
  lemma EventsNumberedFromOne(requests: seq<Request>, fs: FsId, i: nat)
    requires i < |EventsOf(Served(requests).events, fs)|
    ensures EventsOf(Served(requests).events, fs)[i].number == i + 1
  {
    RunKeepsInv(requests);
    assert NumberedFromOne(Served(requests).events, fs);
  }

  /** Grants are never deleted; revoked ones never revive, and an owner's is never revoked, whatever is requested later. */
  lemma {:induction false} GrantsOnlyEverDie(earlier: seq<Request>, later: seq<Request>)
    ensures OnlyRevokes(Served(earlier), Served(earlier + later))
    ensures KeepsShares(Served(earlier), Served(earlier + later))
    decreases |later|
  {
    hide Handle, Inv;
    if later == [] {
      assert earlier + later == earlier;
    } else {
      var before, last := later[..|later| - 1], later[|later| - 1];
      GrantsOnlyEverDie(earlier, before);
      ServedOneMore(earlier, later);
      RunKeepsInv(earlier + before);
      hide Served;
      StepEffect(Served(earlier + before), last);
      WeakenedTwice(Served(earlier), Served(earlier + before), Served(earlier + later));
    }
  }

  lemma ServedOneMore(earlier: seq<Request>, later: seq<Request>)
    requires later != []
    ensures Served(earlier + later) == Handle(Served(earlier + later[..|later| - 1]), later[|later| - 1])
  {
    hide Handle;
    assert (earlier + later)[..|earlier + later| - 1] == earlier + later[..|later| - 1];
  }

  /** Once a share's grant has been replaced or revoked, no later request accepts the share. */
  lemma DeadSharesStayDead(earlier: seq<Request>, later: seq<Request>, share: ShareId, agent: AgentId, now: int)
    requires share in Served(earlier).shares
    requires var s := Served(earlier); s.shares[share].grant in s.grants && !s.grants[s.shares[share].grant].Active()
    ensures AfterAccept(Served(earlier + later), share, agent, now).Err?
  {
    hide Served, AfterAccept, Inv;
    var s, next := Served(earlier), Served(earlier + later);
    GrantsOnlyEverDie(earlier, later);
    RunKeepsInv(earlier + later);
    assert Weakened(s.grants[s.shares[share].grant], next.grants[s.shares[share].grant]);
    InactiveBackingRefuses(next, share, agent, now);
  }

  lemma InactiveBackingRefuses(s: State, share: ShareId, agent: AgentId, now: int)
    requires Inv(s) && share in s.shares
    requires s.shares[share].grant in s.grants && !s.grants[s.shares[share].grant].Active()
    ensures AfterAccept(s, share, agent, now).Err?
  {
    hide Inv, ListGrants, AuthorizeCapability;
    ListMeaning(s, s.shares[share].fs);
    assert First(ListGrants(s, s.shares[share].fs), Backing(s.shares[share].grant)).None?;
  }

  /** An agent's one active grant on a filesystem, if it has one. */
  lemma ListedActiveGrant(s: State, fs: FsId, agent: AgentId, g: Grant)
    requires Inv(s) && g in ListGrants(s, fs) && Held(agent)(g)
    ensures g.capabilities == Capabilities(g.role)
    ensures forall h :: h in ListGrants(s, fs) && Held(agent)(h) ==> h == g
  {
    ListMeaning(s, fs);
    hide NumberedFromOne, ListGrants, OwnerHolds;
    assert ListedIn(s, fs, g) && GrantOk(s, g.id);
    forall h | h in ListGrants(s, fs) && Held(agent)(h) ensures h == g {
      assert ListedIn(s, fs, h) && SameHolder(s.grants[g.id], s.grants[h.id]);
    }
  }

  lemma AuthorizedIffRole(s: State, fs: Filesystem, agent: AgentId, capability: Capability)
    requires Inv(s)
    ensures var role := ActiveRole(s, fs, agent);
            AuthorizeCapability(s, fs, agent, capability).Ok? <==> role.Some? && capability in Capabilities(role.value)
  {
    hide Inv, ListGrants, First;
    var list := ListGrants(s, fs.id);
    var held, able := First(list, Held(agent)), First(list, HeldWith(agent, capability));
    assert able.Some? ==> Held(agent)(able.value);
    if held.Some? {
      ListedActiveGrant(s, fs.id, agent, held.value);
      assert HeldWith(agent, capability)(held.value) <==> capability in held.value.capabilities;
    }
  }

  /** A capability is authorized exactly when the active role has it. */
  lemma AuthorizedIffRoleHasIt(requests: seq<Request>, fs: Filesystem, agent: AgentId, capability: Capability)
    ensures var s := Served(requests);
            var role := ActiveRole(s, fs, agent);
            AuthorizeCapability(s, fs, agent, capability).Ok? <==> role.Some? && capability in Capabilities(role.value)
  {
    hide Served, AuthorizeCapability, ActiveRole, Inv;
    RunKeepsInv(requests);
    AuthorizedIffRole(Served(requests), fs, agent, capability);
  }

  /** An active grant of the agent that lets it touch all the given paths. */
  ghost predicate Permits(g: Grant, agent: AgentId, capability: Capability, paths: seq<Path>) {
    && Held(agent)(g) && capability in Capabilities(g.role)
    && (g.scopes.Some? ==> forall p :: p in paths ==> MatchesSome(p, g.scopes.value))
  }

  ghost predicate SomePermits(list: seq<Grant>, agent: AgentId, capability: Capability, paths: seq<Path>) {
    exists g :: g in list && Permits(g, agent, capability, paths)
  }

  /** The report of an authorization says what one grant covers. */
  ghost predicate ReportFits(g: Grant, agent: AgentId, report: Authorization, paths: seq<Path>) {
    && report.AsGrant? && Held(agent)(g)
    && report.grant == g.id && report.role == g.role && report.scopes == g.scopes && report.matched.Some? == g.scopes.Some?
    && (report.matched.Some? ==>
         (Distinct(report.matched.value)
          && (forall scope :: scope in report.matched.value ==> scope in g.scopes.value)
          && (forall p :: p in paths ==> MatchesSome(p, report.matched.value))))
  }

  ghost predicate SomeReported(list: seq<Grant>, agent: AgentId, report: Authorization, paths: seq<Path>) {
    exists g :: g in list && ReportFits(g, agent, report, paths)
  }

  /** One grant of the list. */
  lemma PathsOne(list: seq<Grant>, agent: AgentId, capability: Capability, paths: seq<Path>, denied: bool)
    requires list != []
    requires Held(agent)(list[0]) ==> list[0].capabilities == Capabilities(list[0].role)
    ensures var g, r := list[0], AuthorizePathsAlong(list, agent, capability, paths, denied);
            && (Permits(g, agent, capability, paths) ==> r.Ok? && ReportFits(g, agent, r.value, paths))
            && (!Permits(g, agent, capability, paths) ==>
                  || r == AuthorizePathsAlong(list[1..], agent, capability, paths, denied)
                  || r == AuthorizePathsAlong(list[1..], agent, capability, paths, true))
  {
    hide MatchedAlong, MatchesSome;
    var g := list[0];
    assert HeldWith(agent, capability)(g) <==> Held(agent)(g) && capability in g.capabilities;
    if g.scopes.Some? {
      ReportedScopes(paths, g.scopes.value);
    }
  }

  lemma {:induction false} PathsAlong(list: seq<Grant>, agent: AgentId, capability: Capability, paths: seq<Path>,
      denied: bool)
    requires forall g :: g in list && Held(agent)(g) ==> g.capabilities == Capabilities(g.role)
    ensures var r := AuthorizePathsAlong(list, agent, capability, paths, denied);
            && (r.Ok? <==> SomePermits(list, agent, capability, paths))
            && (r.Ok? ==> SomeReported(list, agent, r.value, paths))
    decreases |list|
  {
    if list != [] {
      var g, rest := list[0], list[1..];
      assert list == [g] + rest && g in list;
      PathsOne(list, agent, capability, paths, denied);
      hide AuthorizePathsAlong, Permits, ReportFits, Held, Capabilities;
      if !Permits(g, agent, capability, paths) {
        PathsAlong(rest, agent, capability, paths, denied);
        PathsAlong(rest, agent, capability, paths, true);
      }
    }
  }

  /**
   * A path authorization is given exactly to the owner, or to the holder of an active grant whose role has
   * the capability and, if it is scoped, of whose scopes every path matches some.  The scopes reported
   * then are free of duplicates, drawn from that one grant, and cover every path.
   */
  lemma PathsAuthorizedExactly(requests: seq<Request>, fs: Filesystem, agent: AgentId, capability: Capability,
      paths: seq<Path>)
    ensures var s := Served(requests);
            var r := AuthorizePaths(s, fs, agent, capability, paths);
            && (r.Ok? <==> fs.owner == agent || SomePermits(ListGrants(s, fs.id), agent, capability, paths))
            && (r.Ok? && fs.owner != agent ==> SomeReported(ListGrants(s, fs.id), agent, r.value, paths))
  {
    RunKeepsInv(requests);
    hide Inv, ListGrants, Served, AuthorizePathsAlong, SomePermits, SomeReported;
    var s := Served(requests);
    var list := ListGrants(s, fs.id);
    forall g | g in list && Held(agent)(g) ensures g.capabilities == Capabilities(g.role) {
      ListedActiveGrant(s, fs.id, agent, g);
    }
    PathsAlong(list, agent, capability, paths, false);
  }

  function Requester(request: Request): Option<AgentId> {
    match request
    case AddAgent(_) => None
    case DoCreate(_, _, owner, _, _) => Some(owner)
    case DoGrant(_, actor, _, _, _, _, _) => Some(actor)
    case DoRevoke(_, actor, _, _) => Some(actor)
    case DoShare(_, actor, _, _, _) => Some(actor)
    case DoAccept(_, agent, _) => Some(agent)
  }

  /** One request of its own gives an agent no right to commit that it did not have. */
  lemma OwnRequestGainsNothing(s: State, request: Request, agent: AgentId, fs: FsId)
    requires Inv(s) && fs in s.filesystems && Requester(request) == Some(agent)
    requires AuthorizeCapability(s, s.filesystems[fs], agent, Commit).Err?
    ensures var next := Handle(s, request);
            && Inv(next) && fs in next.filesystems && next.filesystems[fs] == s.filesystems[fs]
            && AuthorizeCapability(next, next.filesystems[fs], agent, Commit).Err?
  {
    hide AuthorizeCapability, Handle, Inv;
    StepEffect(s, request);
    OwnId(s, fs);
    if AuthorizeCapability(Handle(s, request), s.filesystems[fs], agent, Commit).Ok? {
      CommitComesFromBefore(s, request, agent, fs);
    }
  }

  /** Nobody gains the right to commit on a filesystem by any run of requests of its own. */
  lemma {:induction false} NoSelfEscalation(earlier: seq<Request>, own: seq<Request>, agent: AgentId, fs: FsId)
    requires forall i :: 0 <= i < |own| ==> Requester(own[i]) == Some(agent)
    requires var s := Served(earlier); fs in s.filesystems && AuthorizeCapability(s, s.filesystems[fs], agent, Commit).Err?
    ensures var s := Served(earlier + own); fs in s.filesystems && AuthorizeCapability(s, s.filesystems[fs], agent, Commit).Err?
    decreases |own|
  {
    hide AuthorizeCapability, Handle, Inv, Requester;
    if own == [] {
      assert earlier + own == earlier;
    } else {
      var before := own[..|own| - 1];
      NoSelfEscalation(earlier, before, agent, fs);
      ServedOneMore(earlier, own);
      RunKeepsInv(earlier + before);
      OwnRequestGainsNothing(Served(earlier + before), own[|own| - 1], agent, fs);
    }
  }

  lemma OwnId(s: State, fs: FsId)
    requires Inv(s) && fs in s.filesystems
    ensures s.filesystems[fs].id == fs
  {
    hide NumberedFromOne;
    assert OwnerHolds(s, fs);
  }

  /** An active grant after a request was there before, was allowed by the checks, or is a new filesystem's owner's. */
  lemma ActiveGrantComesFromBefore(s: State, request: Request, id: GrantId)
    requires Inv(s) && id in Handle(s, request).grants && Handle(s, request).grants[id].Active()
    ensures var g := Handle(s, request).grants[id];
            || (id in s.grants && s.grants[id] == g)
            || (request.DoGrant? && g.fs == request.fs && g.agent == request.target && g.capabilities == Capabilities(request.role)
                && Allowed(s, request.fs, request.actor, request.target, request.role))
            || g.fs !in s.filesystems
  {
    hide Inv, AfterGrant, AfterRevoke, AfterCreate, Allowed;
    if Answer(s, request).Ok? {
      match request
      case DoGrant(fs, actor, target, role, scopes, grantId, now) =>
        GrantEffect(s, fs, actor, target, role, scopes, grantId, now);
        if id in s.grants { assert Weakened(s.grants[id], Handle(s, request).grants[id]); }
      case DoRevoke(fs, actor, target, now) =>
        RevokeEffect(s, fs, actor, target, now);
        assert Weakened(s.grants[id], Handle(s, request).grants[id]);
      case DoCreate(fs, name, owner, grantId, now) =>
        CreatedGrant(s, fs, name, owner, grantId, now);
      case _ => ShareEffect(s, request);
    }
  }

  lemma CreatedGrant(s: State, id: FsId, name: string, owner: AgentId, grantId: GrantId, now: int)
    requires AfterCreate(s, id, name, owner, grantId, now).Ok?
    ensures var next := AfterCreate(s, id, name, owner, grantId, now).value;
            && id !in s.filesystems && next.grants == s.grants[grantId := NewGrant(grantId, id, owner, Owner, None, owner, now)]
  {
    hide TrimSpace;
  }

  lemma CommitComesFromBefore(s: State, request: Request, agent: AgentId, fs: FsId)
    requires Inv(s) && fs in s.filesystems && s.filesystems[fs].id == fs && Requester(request) == Some(agent)
    requires Inv(Handle(s, request))
    requires AuthorizeCapability(Handle(s, request), s.filesystems[fs], agent, Commit).Ok?
    ensures AuthorizeCapability(s, s.filesystems[fs], agent, Commit).Ok?
  {
    hide Inv, ListGrants, Handle, First, Allowed;
    var next := Handle(s, request);
    ListMeaning(next, fs);
    ListMeaning(s, fs);
    if s.filesystems[fs].owner != agent {
      var g := First(ListGrants(next, fs), HeldWith(agent, Commit)).value;
      assert ListedIn(next, fs, g) && HeldWith(agent, Commit)(g);
      ActiveGrantComesFromBefore(s, request, g.id);
      if g.id in s.grants && s.grants[g.id] == g {
        assert ListedIn(s, fs, g);
        assert !First(ListGrants(s, fs), HeldWith(agent, Commit)).None?;
      } else {
        AllowedCommit(s, fs, agent, request.role);
      }
    }
  }

  lemma AllowedCommit(s: State, fs: FsId, actor: AgentId, role: Role)
    requires Allowed(s, fs, actor, actor, role) && Commit in Capabilities(role)
    ensures AuthorizeCapability(s, s.filesystems[fs], actor, Commit).Ok?
  {
    hide AuthorizeCapability;
  }

  // ----- When each request succeeds -----

  /** The agent's role on the filesystem has the capability. */
  predicate Can(s: State, fsId: FsId, agent: AgentId, capability: Capability) {
    && fsId in s.filesystems
    && var role := ActiveRole(s, s.filesystems[fsId], agent);
       role.Some? && capability in Capabilities(role.value)
  }

  lemma CanIsAuthorized(s: State, fsId: FsId, agent: AgentId, capability: Capability)
    requires Inv(s) && fsId in s.filesystems
    ensures Can(s, fsId, agent, capability) <==> AuthorizeCapability(s, s.filesystems[fsId], agent, capability).Ok?
  {
    hide AuthorizeCapability, ActiveRole, Inv;
    AuthorizedIffRole(s, s.filesystems[fsId], agent, capability);
  }

  /** A grant succeeds exactly for a manager granting a non-owner role to a known agent other than the owner. */
  lemma GrantedExactly(requests: seq<Request>, fsId: FsId, actor: AgentId, target: AgentId, role: Role,
      scopes: Option<seq<Scope>>, grantId: GrantId, now: int)
    ensures var s := Served(requests);
            AfterGrant(s, fsId, actor, target, role, scopes, grantId, now).Ok? <==>
              && ValidScopes(scopes) && role != Owner && target in s.agents
              && Can(s, fsId, actor, Manage) && (actor == target && Commit in Capabilities(role) ==> Can(s, fsId, actor, Commit))
              && target != s.filesystems[fsId].owner && grantId !in s.grants
  {
    hide Served, AuthorizeCapability, ActiveRole, Inv, ValidScopes, RevokeAll, Targets, Can;
    RunKeepsInv(requests);
    var s := Served(requests);
    if fsId in s.filesystems {
      CanIsAuthorized(s, fsId, actor, Manage);
      CanIsAuthorized(s, fsId, actor, Commit);
      if target != s.filesystems[fsId].owner {
        RevokeTargets(s, fsId, target, actor, now);
        RevokedKeys(s, RevokeAll(s, Targets(s, fsId, target), actor, now).value, Targets(s, fsId, target));
      }
    } else {
      UnknownCannot(s, fsId, actor, Manage);
    }
  }

  lemma UnknownCannot(s: State, fsId: FsId, agent: AgentId, capability: Capability)
    requires fsId !in s.filesystems
    ensures !Can(s, fsId, agent, capability)
  {
  }

  /** A revocation succeeds exactly for a manager and a target other than the owner that has an active role. */
  lemma RevokedExactlyWhen(requests: seq<Request>, fsId: FsId, actor: AgentId, target: AgentId, now: int)
    ensures var s := Served(requests);
            AfterRevoke(s, fsId, actor, target, now).Ok? <==>
              && Can(s, fsId, actor, Manage) && target != s.filesystems[fsId].owner
              && ActiveRole(s, s.filesystems[fsId], target).Some?
  {
    hide Served, AuthorizeCapability, Inv, RevokeAll, Can, First, Filter, ListGrants;
    RunKeepsInv(requests);
    var s := Served(requests);
    if fsId in s.filesystems {
      CanIsAuthorized(s, fsId, actor, Manage);
      if target != s.filesystems[fsId].owner {
        RevokeTargets(s, fsId, target, actor, now);
        var fs := s.filesystems[fsId];
        OwnId(s, fsId);
        var found := First(ListGrants(s, fsId), Held(target));
        assert found.Some? ==> found.value in Targets(s, fsId, target);
        assert found.None? ==> forall g :: g !in Targets(s, fsId, target);
        EmptyOrInhabited(Targets(s, fsId, target));
      }
    } else {
      UnknownCannot(s, fsId, actor, Manage);
    }
  }

  /** A share stands for a grant of its target, on its filesystem, that can read. */
  ghost predicate ShareOk(s: State, id: ShareId)
    requires id in s.shares
  {
    var share := s.shares[id];
    && share.fs in s.filesystems && share.grant in s.grants && share.revokedAt.None?
    && s.grants[share.grant].fs == share.fs && s.grants[share.grant].agent == share.target
    && Read in s.grants[share.grant].capabilities
  }

  ghost predicate SharesOk(s: State) {
    forall id :: id in s.shares ==> ShareOk(s, id)
  }

  /** A share made by a request names the listed grant that gave the target its read access. */
  lemma ShareMeans(s: State, fsId: FsId, actor: AgentId, target: AgentId, shareId: ShareId, now: int)
    requires Inv(s) && AfterShare(s, fsId, actor, target, shareId, now).Ok?
    ensures var next := AfterShare(s, fsId, actor, target, shareId, now).value;
            && shareId !in s.shares && next.shares.Keys == s.shares.Keys + {shareId}
            && (forall id :: id in s.shares ==> next.shares[id] == s.shares[id])
            && next.filesystems == s.filesystems && next.grants == s.grants
            && ShareOk(next, shareId) && next.shares[shareId].target == target && next.shares[shareId].fs == fsId
            && s.grants[next.shares[shareId].grant].Active()
            && target in s.agents && Can(s, fsId, actor, Manage)
  {
    hide AuthorizeCapability, Inv, First, ListGrants, ActiveRole;
    CanIsAuthorized(s, fsId, actor, Manage);
    ListMeaning(s, fsId);
    var g := First(ListGrants(s, fsId), HeldWith(target, Read)).value;
    assert ListedIn(s, fsId, g) && HeldWith(target, Read)(g);
  }

  lemma StepKeepsShares(s: State, request: Request)
    requires Inv(s) && SharesOk(s)
    ensures SharesOk(Handle(s, request))
  {
    var next := Handle(s, request);
    StepEffect(s, request);
    NewSharesAreOk(s, request);
    hide Handle, Inv;
    forall id | id in next.shares ensures ShareOk(next, id) {
      if id in s.shares {
        assert ShareOk(s, id);
        assert Weakened(s.grants[s.shares[id].grant], next.grants[s.shares[id].grant]);
      }
    }
  }

  /** New shares are sound, and old ones differ at most in being accepted. */
  lemma NewSharesAreOk(s: State, request: Request)
    requires Inv(s)
    ensures var next := Handle(s, request);
            && (forall id :: id in next.shares && id !in s.shares ==> ShareOk(next, id))
            && (forall id :: id in s.shares ==> id in next.shares && next.shares[id] == s.shares[id].(acceptedAt := next.shares[id].acceptedAt))
  {
    hide Inv, AfterGrant, AfterRevoke, AfterShare, AuthorizeCapability, ListGrants, First;
    if Answer(s, request).Ok? {
      match request
      case DoCreate(id, name, owner, grantId, now) => CreateEffect(s, id, name, owner, grantId, now);
      case DoGrant(fs, actor, target, role, scopes, grantId, now) => GrantEffect(s, fs, actor, target, role, scopes, grantId, now);
      case DoRevoke(fs, actor, target, now) => RevokeEffect(s, fs, actor, target, now);
      case DoShare(fs, actor, target, shareId, now) => ShareMeans(s, fs, actor, target, shareId, now);
      case _ =>
    }
  }

  lemma {:induction false} RunKeepsShares(requests: seq<Request>)
    ensures SharesOk(Served(requests))
  {
    hide Handle, Inv, SharesOk;
    if requests == [] {
      NoSharesAreOk();
    } else {
      RunKeepsInv(requests[..|requests| - 1]);
      RunKeepsShares(requests[..|requests| - 1]);
      StepKeepsShares(Served(requests[..|requests| - 1]), requests[|requests| - 1]);
    }
  }

  lemma NoSharesAreOk()
    ensures SharesOk(Empty())
  {
  }

  /** A share is accepted exactly by its target, before it expires and while the very grant it was made for is active. */
  lemma AcceptedExactly(requests: seq<Request>, share: ShareId, agent: AgentId, now: int)
    requires share in Served(requests).shares
    ensures var s := Served(requests);
            var sh := s.shares[share];
            && sh.grant in s.grants
            && (AfterAccept(s, share, agent, now).Ok? <==>
                  sh.target == agent && (sh.expiresAt.Some? ==> sh.expiresAt.value > now) && s.grants[sh.grant].Active())
  {
    RunKeepsInv(requests);
    RunKeepsShares(requests);
    hide Served;
    AcceptedWhen(Served(requests), share, agent, now);
  }

  /** With its grant active, a share's target can read, and the backing grant is found. */
  lemma BackingFound(s: State, share: ShareId)
    requires Inv(s) && share in s.shares && ShareOk(s, share)
    requires s.grants[s.shares[share].grant].Active()
    ensures var sh := s.shares[share];
            && AuthorizeCapability(s, s.filesystems[sh.fs], sh.target, Read).Ok?
            && First(ListGrants(s, sh.fs), Backing(sh.grant)) == Some(s.grants[sh.grant])
  {
    var sh := s.shares[share];
    var g, list := s.grants[sh.grant], ListGrants(s, sh.fs);
    Keyed(s);
    OwnId(s, sh.fs);
    ListMeaning(s, sh.fs);
    hide Inv, ListGrants, First;
    assert ListedIn(s, sh.fs, g) && g in list && Backing(sh.grant)(g) && HeldWith(sh.target, Read)(g);
    var found := First(list, Backing(sh.grant));
    assert found.Some? && ListedIn(s, sh.fs, found.value);
    assert First(list, HeldWith(sh.target, Read)).Some?;
  }

  lemma AcceptedWhen(s: State, share: ShareId, agent: AgentId, now: int)
    requires Inv(s) && SharesOk(s) && share in s.shares
    ensures s.shares[share].grant in s.grants
    ensures var sh := s.shares[share];
            AfterAccept(s, share, agent, now).Ok? <==>
              sh.target == agent && (sh.expiresAt.Some? ==> sh.expiresAt.value > now) && s.grants[sh.grant].Active()
  {
    assert ShareOk(s, share);
    AcceptChecks(s, share, agent, now);
    hide Inv, SharesOk, ListGrants, First, AuthorizeCapability, Backing, AfterAccept;
    if s.grants[s.shares[share].grant].Active() {
      BackingFound(s, share);
    } else {
      InactiveBackingRefuses(s, share, agent, now);
    }
  }

  lemma AcceptChecks(s: State, share: ShareId, agent: AgentId, now: int)
    requires share in s.shares && s.shares[share].fs in s.filesystems
    ensures var sh := s.shares[share];
            var found := First(ListGrants(s, sh.fs), Backing(sh.grant));
            AfterAccept(s, share, agent, now).Ok? <==>
              && sh.target == agent && sh.revokedAt.None? && (sh.expiresAt.Some? ==> sh.expiresAt.value > now)
              && AuthorizeCapability(s, s.filesystems[sh.fs], agent, Read).Ok?
              && found.Some? && Read in found.value.capabilities
  {
    hide AuthorizeCapability, ListGrants, First, Backing;
  }
}
