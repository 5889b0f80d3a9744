/** The control service: the tables its transactions read and write. */
module ControlService {
  import opened Wrappers
  import opened Strings
  import opened Versions
  import opened Glob
  import opened Authority

  /** A transaction commits exactly the answer's tables, or rolls back to the tables it began with. */
  ghost predicate Finished(before: State, answer: Result<State, AuthorityError>, after: State,
      error: Option<AuthorityError>) {
    match answer
    case Ok(next) => after == next && error == None
    case Err(e) => after == before && error == Some(e)
  }

  function ErrorOf<T>(r: Result<T, AuthorityError>): Option<AuthorityError> {
    if r.Err? then Some(r.error) else None
  }

  /** The answer to a revocation, and the answer to a grant. */
  datatype RevokeMutation = RevokeMutation(revoked: seq<Grant>, events: seq<EventRow>)

  datatype GrantMutation = GrantMutation(grant: Grant, revoked: seq<Grant>, events: seq<EventRow>)

  ghost predicate RevokedCopies(list: seq<Grant>, revoked: seq<Grant>, actor: AgentId, now: int) {
    |revoked| == |list| && forall i :: 0 <= i < |list| ==> revoked[i] == Revoked(list[i], actor, now)
  }

  lemma FirstFrom(list: seq<Grant>, i: nat, p: Grant -> bool)
    requires i < |list|
    ensures First(list[i..], p) == if p(list[i]) then Some(list[i]) else First(list[i + 1..], p)
  {
    assert list[i..][1..] == list[i + 1..];
  }

  lemma FirstOfNone(list: seq<Grant>, p: Grant -> bool)
    requires list == []
    ensures First(list, p) == None
  {
  }

  lemma HeldWithMeans(g: Grant, agent: AgentId, capability: Capability)
    ensures HeldWith(agent, capability)(g) <==> g.agent == agent && g.Active() && capability in g.capabilities
  {
  }

  class ControlService {
    var agents: set<AgentId>
    var filesystems: map<FsId, Filesystem>
    var grants: map<GrantId, Grant>
    var shares: map<ShareId, Share>
    var events: seq<EventRow>

    function Tables(): State
      reads this
    {
      State(agents, filesystems, grants, shares, events)
    }

    constructor ()
      ensures Tables() == Empty()
    {
      agents, filesystems, grants, shares, events := {}, map[], map[], map[], [];
    }

    method Rollback(saved: State)
      modifies this
      ensures Tables() == saved
    {
      agents, filesystems, grants, shares, events := saved.agents, saved.filesystems, saved.grants, saved.shares, saved.events;
    }

    method RegisterAgent(agent: AgentId)
      modifies this`agents
      ensures Tables() == Handle(old(Tables()), AddAgent(agent))
    {
      agents := agents + {agent};
    }

    method AuthorizeCapabilityForFs(fs: Filesystem, agent: AgentId,
        capability: Capability) returns (r: Result<Authorization, AuthorityError>)
      ensures r == AuthorizeCapability(Tables(), fs, agent, capability)
    {
      if fs.owner == agent && capability in Capabilities(Owner) {
        return Ok(AsOwner(agent));
      }
      hide ListGrants, First, HeldWith;
      var list := ListGrants(Tables(), fs.id);
      var i := 0;
      assert list[0..] == list;
      while i < |list|
        invariant 0 <= i <= |list|
        invariant First(list, HeldWith(agent, capability)) == First(list[i..], HeldWith(agent, capability))
      {
        var g := list[i];
        FirstFrom(list, i, HeldWith(agent, capability));
        HeldWithMeans(g, agent, capability);
        if g.agent == agent && g.Active() && capability in g.capabilities {
          return Ok(AsGrant(g.id, g.role, g.scopes, None));
        }
        i := i + 1;
      }
      FirstOfNone(list[i..], HeldWith(agent, capability));
      return Err(GrantDenied);
    }

    method AuthorizePathsForFs(fs: Filesystem, agent: AgentId, capability: Capability,
        paths: seq<Path>) returns (r: Result<Authorization, AuthorityError>)
      ensures r == AuthorizePaths(Tables(), fs, agent, capability, paths)
    {
      if fs.owner == agent && capability in Capabilities(Owner) {
        return Ok(AsOwner(agent));
      }
      hide ListGrants, MatchedAlong;
      var list := ListGrants(Tables(), fs.id);
      var scopedDenial := false;
      var i := 0;
      assert list[0..] == list;
      while i < |list|
        invariant 0 <= i <= |list|
        invariant AuthorizePathsAlong(list, agent, capability, paths, false) == AuthorizePathsAlong(list[i..], agent, capability, paths, scopedDenial)
      {
        var g := list[i];
        assert list[i..][0] == g && list[i..][1..] == list[i + 1..];
        if g.agent == agent && g.Active() && capability in g.capabilities {
          match g.scopes {
            case None =>
              return Ok(AsGrant(g.id, g.role, None, None));
            case Some(scopes) =>
              var matched := MatchedPathScopes(paths, scopes);
              if matched.Some? {
                return Ok(AsGrant(g.id, g.role, Some(scopes), matched));
              }
              scopedDenial := true;
          }
        }
        i := i + 1;
      }
      return Err(if scopedDenial then PathScopeDenied else GrantDenied);
    }

    /** Stores the event under its own number, or under its filesystem's next one if it brings none. */
    method InsertEvent(event: EventRow) returns (stored: EventRow)
      modifies this`events
      ensures stored == Numbered(old(events), event) && events == old(events) + [stored]
    {
      stored := event;
      if event.number == 0 {
        stored := event.(number := MaxNumber(events, event.fs) + 1);
      }
      events := events + [stored];
    }

    method InsertGrant(g: Grant) returns (error: Option<AuthorityError>)
      modifies this`grants
      ensures Finished(old(Tables()), WithGrant(old(Tables()), g), Tables(), error)
    {
      if g.id in grants {
        return Some(DuplicateId);
      }
      grants := grants[g.id := g];
      return None;
    }

    /** Revoke the listed grants one by one; an owner's grant stops the loop with an error. */
    method RevokeGrants(list: seq<Grant>, actor: AgentId, now: int) returns (r: Result<RevokeMutation, AuthorityError>)
      modifies this`grants, this`events
      ensures match RevokeAll(old(Tables()), list, actor, now)
              case Ok(next) =>
                && r.Ok? && Tables() == next && RevokedCopies(list, r.value.revoked, actor, now)
                && events == old(events) + r.value.events
              case Err(e) => r == Err(e)
    {
      hide MaxNumber;
      ghost var whole := RevokeAll(Tables(), list, actor, now);
      var revoked, written := [], [];
      var i := 0;
      assert list[0..] == list;
      while i < |list|
        invariant 0 <= i <= |list|
        invariant agents == old(agents) && filesystems == old(filesystems) && shares == old(shares)
        invariant whole == RevokeAll(Tables(), list[i..], actor, now)
        invariant RevokedCopies(list[..i], revoked, actor, now) && events == old(events) + written
      {
        var g := list[i];
        assert list[i..][0] == g && list[i..][1..] == list[i + 1..];
        if g.role == Owner {
          return Err(GrantDenied);
        }
        g := g.(revokedAt := Some(now), revokedBy := Some(actor));
        grants := grants[g.id := g];
        var event := InsertEvent(EventRow(g.fs, 0, GrantRevoked, actor, g.id));
        written := written + [event];
        revoked := revoked + [g];
        i := i + 1;
      }
      assert list[i..] == [] && list[..i] == list;
      return Ok(RevokeMutation(revoked, written));
    }

    method CreateFilesystem(id: FsId, name: string, owner: AgentId, grantId: GrantId,
        now: int) returns (error: Option<AuthorityError>)
      modifies this
      ensures Finished(old(Tables()), AfterCreate(old(Tables()), id, name, owner, grantId, now), Tables(), error)
    {
      var bare := TrimSpace(name);
      if bare == "" {
        return Some(EmptyName);
      }
      hide TrimSpace, Numbered;
      var saved := Tables();
      if exists other :: other in filesystems && filesystems[other].name == bare {
        return Some(DuplicateName);
      }
      if id in filesystems {
        return Some(DuplicateId);
      }
      filesystems := filesystems[id := Filesystem(id, bare, owner, now)];
      error := InsertGrant(NewGrant(grantId, id, owner, Owner, None, owner, now));
      if error.Some? {
        Rollback(saved);
        return;
      }
      var _ := InsertEvent(EventRow(id, 0, FsCreated, owner, id));
    }

    /** The checks of a grant request, in order, before anything is written. */
    method CheckGrant(fsId: FsId, actor: AgentId, target: AgentId, role: Role,
        scopes: Option<seq<Scope>>) returns (error: Option<AuthorityError>)
      ensures error == MayGrant(Tables(), fsId, actor, target, role, scopes)
    {
      hide AuthorizeCapability, ValidScopes;
      if !ValidScopes(scopes) {
        return Some(InvalidPathScope);
      }
      if role == Owner {
        return Some(GrantDenied);
      }
      if target !in agents {
        return Some(UnknownAgent);
      }
      if fsId !in filesystems {
        return Some(UnknownFs);
      }
      var fs := filesystems[fsId];
      var manage := AuthorizeCapabilityForFs(fs, actor, Manage);
      if manage.Err? {
        return Some(manage.error);
      }
      if actor == target && Commit in Capabilities(role) {
        var commit := AuthorizeCapabilityForFs(fs, actor, Commit);
        if commit.Err? {
          return Some(GrantDenied);
        }
      }
      if target == fs.owner {
        return Some(GrantDenied);
      }
      return None;
    }

    method FsGrant(fsId: FsId, actor: AgentId, target: AgentId, role: Role, scopes: Option<seq<Scope>>,
        grantId: GrantId, now: int)
      returns (r: Result<GrantMutation, AuthorityError>)
      modifies this
      ensures Finished(old(Tables()), AfterGrant(old(Tables()), fsId, actor, target, role, scopes, grantId, now), Tables(), ErrorOf(r))
      ensures r.Ok? ==>
                && Get(grants, grantId) == Some(r.value.grant) && events == old(events) + r.value.events
                && RevokedCopies(Targets(old(Tables()), fsId, target), r.value.revoked, actor, now)
    {
      hide MayGrant, Targets, RevokeAll, Numbered, RevokedCopies;
      var refused := CheckGrant(fsId, actor, target, role, scopes);
      if refused.Some? {
        return Err(refused.value);
      }
      var saved := Tables();
      var mutation := RevokeGrants(Targets(Tables(), fsId, target), actor, now);
      if mutation.Err? {
        Rollback(saved);
        return Err(mutation.error);
      }
      var grant := NewGrant(grantId, fsId, target, role, scopes, actor, now);
      refused := InsertGrant(grant);
      if refused.Some? {
        Rollback(saved);
        return Err(refused.value);
      }
      var event := InsertEvent(EventRow(fsId, 0, GrantCreated, actor, grantId));
      r := Ok(GrantMutation(grant, mutation.value.revoked, mutation.value.events + [event]));
    }

    method FsRevoke(fsId: FsId, actor: AgentId, target: AgentId,
        now: int) returns (r: Result<RevokeMutation, AuthorityError>)
      modifies this
      ensures Finished(old(Tables()), AfterRevoke(old(Tables()), fsId, actor, target, now), Tables(), ErrorOf(r))
      ensures r.Ok? ==>
                && events == old(events) + r.value.events
                && RevokedCopies(Targets(old(Tables()), fsId, target), r.value.revoked, actor, now)
    {
      hide AuthorizeCapability, Targets, RevokeAll, RevokedCopies;
      if fsId !in filesystems {
        return Err(UnknownFs);
      }
      var fs := filesystems[fsId];
      var manage := AuthorizeCapabilityForFs(fs, actor, Manage);
      if manage.Err? {
        return Err(manage.error);
      }
      if target == fs.owner {
        return Err(GrantDenied);
      }
      var saved := Tables();
      var list := Targets(Tables(), fsId, target);
      r := RevokeGrants(list, actor, now);
      if r.Ok? && list == [] {
        r := Err(GrantDenied);
      }
      if r.Err? {
        Rollback(saved);
      }
    }

    method FsShare(fsId: FsId, actor: AgentId, target: AgentId, shareId: ShareId,
        now: int) returns (r: Result<Share, AuthorityError>)
      modifies this
      ensures Finished(old(Tables()), AfterShare(old(Tables()), fsId, actor, target, shareId, now), Tables(), ErrorOf(r))
      ensures r.Ok? ==> Get(shares, shareId) == Some(r.value)
    {
      hide AuthorizeCapability, ListGrants, First;
      if target !in agents {
        return Err(UnknownAgent);
      }
      if fsId !in filesystems {
        return Err(UnknownFs);
      }
      var manage := AuthorizeCapabilityForFs(filesystems[fsId], actor, Manage);
      if manage.Err? {
        return Err(manage.error);
      }
      match First(ListGrants(Tables(), fsId), HeldWith(target, Read)) {
        case None =>
          return Err(GrantDenied);
        case Some(g) =>
          if shareId in shares {
            return Err(DuplicateId);
          }
          var share := Share(shareId, fsId, target, g.id, g.role, actor, now, None, None, None);
          shares := shares[shareId := share];
          return Ok(share);
      }
    }

    method AcceptShare(shareId: ShareId, agent: AgentId, now: int) returns (r: Result<Share, AuthorityError>)
      modifies this
      ensures Finished(old(Tables()), AfterAccept(old(Tables()), shareId, agent, now), Tables(), ErrorOf(r))
      ensures r.Ok? ==> Get(shares, shareId) == Some(r.value)
    {
      hide AuthorizeCapability, ListGrants, First;
      if shareId !in shares {
        return Err(UnknownShare);
      }
      var share := shares[shareId];
      if share.target != agent || share.revokedAt.Some? || (share.expiresAt.Some? && share.expiresAt.value <= now) {
        return Err(GrantDenied);
      }
      if share.fs !in filesystems {
        return Err(UnknownFs);
      }
      var read := AuthorizeCapabilityForFs(filesystems[share.fs], agent, Read);
      if read.Err? {
        return Err(read.error);
      }
      match First(ListGrants(Tables(), share.fs), Backing(share.grant)) {
        case None =>
          return Err(GrantDenied);
        case Some(g) =>
          if Read !in g.capabilities {
            return Err(GrantDenied);
          }
          if share.acceptedAt.None? {
            share := share.(acceptedAt := Some(now));
            shares := shares[shareId := share];
          }
          return Ok(share);
      }
    }
  }
}
