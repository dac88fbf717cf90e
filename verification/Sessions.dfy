/** The identity directory: refresh-session families, versioned memberships, invitations. */
module Sessions {
  import opened Basics

  const ACCOUNT := "__account__"
  const MIN_SESSION_TTL := 60
  const MAX_SESSION_TTL := 2592000
  const OWNER := "owner"
  const LAST_OWNER_GUARD := 1

  datatype User = User(email: string, active: bool)

  /** A membership row. Its version grows with every grant and every revocation. */
  datatype Member = Member(role: string, active: bool, version: nat)

  datatype Invite = Invite(
    workspace: string, email: string, role: string, expires: Time, accepted: bool, revoked: bool, creator: string)

  /** A session row. Tokens are fresh and hashed injectively, so the token of a session, and
      its id, are its position in the table. */
  datatype Session = Session(
    user: string, workspace: string, expires: Time, revoked: bool,
    rotatedFrom: Option<nat>, family: nat, version: nat)

  /** (workspace, user). */
  type Seat = (string, string)

  datatype Directory = Directory(
    users: map<string, User>, workspaces: map<string, bool>, members: map<Seat, Member>,
    invites: seq<Invite>, sessions: seq<Session>)

  // ------------------------------------------------------------------ transactions

  predicate ActiveUser(d: Directory, uid: string) { uid in d.users && d.users[uid].active }

  /** `_membership`: an active membership of an active user in an active workspace. */
  predicate ActiveMember(d: Directory, uid: string, wid: string) {
    && (wid, uid) in d.members && d.members[(wid, uid)].active
    && wid in d.workspaces && d.workspaces[wid] && ActiveUser(d, uid)
  }

  predicate ActiveOwner(d: Directory, uid: string, wid: string) {
    ActiveMember(d, uid, wid) && d.members[(wid, uid)].role == OWNER
  }

  /** `_session_identity`: the membership version a session is issued under, 0 for the account. */
  function IdentityVersion(d: Directory, uid: string, wid: string): Option<nat> {
    if !ActiveUser(d, uid) then None
    else if wid == ACCOUNT then Some(0)
    else if !ActiveMember(d, uid, wid) then None
    else Some(d.members[(wid, uid)].version)
  }

  /** `_new_session`. */
  function NewSession(
    d: Directory, uid: string, wid: string, expires: Time, family: Option<nat>, previous: Option<nat>)
    : (Directory, Option<nat>)
  {
    match IdentityVersion(d, uid, wid)
    case None => (d, None)
    case Some(version) =>
      var sid := |d.sessions|;
      var s := Session(uid, wid, expires, false, previous, if family.Some? then family.value else sid, version);
      (d.(sessions := d.sessions + [s]), Some(sid))
  }

  function CreateSession(d: Directory, uid: string, wid: string, ttl: int, now: Time): (Directory, Option<nat>) {
    if !(MIN_SESSION_TTL <= ttl <= MAX_SESSION_TTL) then (d, None)
    else NewSession(d, uid, wid, now + ttl as real, None, None)
  }

  predicate Usable(s: Session, now: Time) { !s.revoked && s.expires > now }

  /** `validate_session`. */
  predicate Validates(d: Directory, sid: nat, uid: string, wid: string, now: Time) {
    && sid < |d.sessions| && d.sessions[sid].user == uid && d.sessions[sid].workspace == wid
    && Usable(d.sessions[sid], now)
    && IdentityVersion(d, uid, wid) == Some(d.sessions[sid].version)
  }

  /** The conditions under which sessions are revoked together. */
  datatype Which = OfFamily(family: nat) | OfUser(user: string) | OfSeat(user: string, workspace: string)

  predicate Matches(s: Session, which: Which) {
    match which
    case OfFamily(family) => s.family == family
    case OfUser(user) => s.user == user
    case OfSeat(user, workspace) => s.user == user && s.workspace == workspace
  }

  function RevokeWhere(sessions: seq<Session>, which: Which): seq<Session> {
    seq(|sessions|, i requires 0 <= i < |sessions| =>
      if Matches(sessions[i], which) then sessions[i].(revoked := true) else sessions[i])
  }

  function RevokeFamily(d: Directory, family: nat): Directory {
    d.(sessions := RevokeWhere(d.sessions, OfFamily(family)))
  }

  /** `rotate_session`. A token that is revoked, expired, or no longer backed by the same
      membership revokes its whole family, and that write is committed. */
  function Rotate(d: Directory, token: nat, now: Time): (Directory, Option<nat>) {
    if token >= |d.sessions| then (d, None)
    else
      var s := d.sessions[token];
      if !Usable(s, now) || IdentityVersion(d, s.user, s.workspace) != Some(s.version)
      then (RevokeFamily(d, s.family), None)
      else
        NewSession(d.(sessions := d.sessions[token := s.(revoked := true)]),
                   s.user, s.workspace, s.expires, Some(s.family), Some(token))
  }

  /** `revoke_session`: logging out revokes the family. */
  function Logout(d: Directory, token: nat): Directory {
    if token >= |d.sessions| then d else RevokeFamily(d, d.sessions[token].family)
  }

  /** `revoke_all_sessions`. */
  function LogoutEverywhere(d: Directory, uid: string): Directory {
    if !ActiveUser(d, uid) then d
    else d.(sessions := RevokeWhere(d.sessions, OfUser(uid)))
  }

  function ActiveOwners(d: Directory, wid: string): set<Seat> {
    set m | m in d.members && m.0 == wid && d.members[m].role == OWNER && d.members[m].active
  }

  /** `revoke_membership`. */
  function RevokeMembership(d: Directory, actor: string, wid: string, target: string): (Directory, bool) {
    if !ActiveOwner(d, actor, wid) then (d, false)
    else if (wid, target) !in d.members || !d.members[(wid, target)].active then (d, false)
    else if d.members[(wid, target)].role == OWNER && |ActiveOwners(d, wid)| <= LAST_OWNER_GUARD then (d, false)
    else
      var m := d.members[(wid, target)];
      (d.(members := d.members[(wid, target) := m.(active := false, version := m.version + 1)],
          sessions := RevokeWhere(d.sessions, OfSeat(target, wid))), true)
  }

  predicate InviteOk(d: Directory, inv: nat, email: string, now: Time) {
    && inv < |d.invites| && !d.invites[inv].accepted && !d.invites[inv].revoked
    && d.invites[inv].expires > now && d.invites[inv].email == email
    && ActiveOwner(d, d.invites[inv].creator, d.invites[inv].workspace)
  }

  /** `_accept`: grant, or grant again under a higher version; an active member keeps its row. */
  function Accept(d: Directory, uid: string, inv: nat, now: Time): (Directory, bool) {
    if !ActiveUser(d, uid) || !InviteOk(d, inv, d.users[uid].email, now) then (d, false)
    else
      var invite := d.invites[inv];
      var seat := (invite.workspace, uid);
      var members :=
        if ActiveMember(d, uid, invite.workspace) then d.members
        else d.members[seat := Member(invite.role, true, if seat in d.members then d.members[seat].version + 1 else 1)];
      (d.(members := members, invites := d.invites[inv := invite.(accepted := true)]), true)
  }

  function CreateInvitation(d: Directory, actor: string, wid: string, email: string, role: string, ttl: int, now: Time)
    : Directory
  {
    if role !in {"operator", "integrator", "viewer"} || !(300 <= ttl <= 604800) || !ActiveOwner(d, actor, wid) then d
    else d.(invites := d.invites + [Invite(wid, email, role, now + ttl as real, false, false, actor)])
  }

  /** `_workspace`: a new workspace with its first owner. */
  function CreateWorkspace(d: Directory, uid: string, wid: string): Directory {
    if !ActiveUser(d, uid) || wid in d.workspaces || wid == ACCOUNT then d
    else d.(workspaces := d.workspaces[wid := true], members := d.members[(wid, uid) := Member(OWNER, true, 1)])
  }

  datatype Op =
    | OpCreateSession(uid: string, wid: string, ttl: int, now: Time)
    | OpRotate(token: nat, now: Time)
    | OpLogout(token: nat)
    | OpLogoutEverywhere(uid: string)
    | OpRevokeMembership(actor: string, wid: string, target: string)
    | OpAccept(uid: string, inv: nat, now: Time)
    | OpInvite(actor: string, wid: string, email: string, role: string, ttl: int, now: Time)
    | OpWorkspace(uid: string, wid: string)
    | OpUserStatus(uid: string, user: User)
    | OpWorkspaceStatus(wid: string, active: bool)

  function Apply(d: Directory, op: Op): Directory {
    match op
    case OpCreateSession(uid, wid, ttl, now) => CreateSession(d, uid, wid, ttl, now).0
    case OpRotate(token, now) => Rotate(d, token, now).0
    case OpLogout(token) => Logout(d, token)
    case OpLogoutEverywhere(uid) => LogoutEverywhere(d, uid)
    case OpRevokeMembership(actor, wid, target) => RevokeMembership(d, actor, wid, target).0
    case OpAccept(uid, inv, now) => Accept(d, uid, inv, now).0
    case OpInvite(actor, wid, email, role, ttl, now) => CreateInvitation(d, actor, wid, email, role, ttl, now)
    case OpWorkspace(uid, wid) => CreateWorkspace(d, uid, wid)
    case OpUserStatus(uid, user) => d.(users := d.users[uid := user])
    case OpWorkspaceStatus(wid, active) =>
      if wid in d.workspaces then d.(workspaces := d.workspaces[wid := active]) else d
  }

  // --------------------------------------------------------------------- invariant

  /** A family is one chain: each member but the first was rotated from the member just
      before it, with the same holder and the same expiry, and only the newest member can
      be unrevoked. */
  ghost predicate ChainOk(sessions: seq<Session>) {
    && (forall i :: 0 <= i < |sessions| ==> RowOk(sessions, i))
    && (forall i, j :: 0 <= i < j < |sessions| ==> FollowsOk(sessions[i], i, sessions[j]))
  }

  ghost predicate RowOk(sessions: seq<Session>, i: nat)
    requires i < |sessions|
  {
    var s := sessions[i];
    && s.family <= i
    && (s.family == i <==> s.rotatedFrom.None?)
    && (s.rotatedFrom.Some? ==> s.rotatedFrom.value < i && SameHolding(sessions[s.rotatedFrom.value], s))
  }

  /** A later session `t` of the family of session `s`, the `i`-th. */
  predicate FollowsOk(s: Session, i: nat, t: Session) {
    s.family == t.family ==> s.revoked && t.rotatedFrom.Some? && i <= t.rotatedFrom.value
  }

  predicate SameHolding(a: Session, b: Session) {
    a.user == b.user && a.workspace == b.workspace && a.expires == b.expires && a.family == b.family
  }

  ghost predicate SeatsOk(d: Directory) {
    && (forall m :: m in d.members ==> m.0 in d.workspaces && m.0 != ACCOUNT)
    && (forall i :: 0 <= i < |d.sessions| && d.sessions[i].workspace != ACCOUNT ==>
          var s := d.sessions[i];
          (s.workspace, s.user) in d.members && s.version <= d.members[(s.workspace, s.user)].version)
    && (forall k :: 0 <= k < |d.invites| ==> d.invites[k].role != OWNER)
    && ACCOUNT !in d.workspaces
  }

  /** Every workspace keeps an owner's active membership; its user may be deactivated. */
  ghost predicate OwnersOk(d: Directory) {
    forall wid :: wid in d.workspaces ==> HasOwner(d.members, wid)
  }

  ghost predicate HasOwner(members: map<Seat, Member>, wid: string) {
    exists m :: m in members && m.0 == wid && members[m].role == OWNER && members[m].active
  }

  ghost predicate Inv(d: Directory) { ChainOk(d.sessions) && SeatsOk(d) && OwnersOk(d) }

  /** What no operation undoes: issued sessions keep everything but their revocation, which
      is final, and are only added to by rotating an unrevoked member; membership versions
      only grow, and an accepted invitation stays accepted. */
  ghost predicate Evolves(d: Directory, d': Directory) {
    && SessionsEvolve(d.sessions, d'.sessions)
    && MembersEvolve(d.members, d'.members)
    && |d.invites| <= |d'.invites|
    && (forall k :: 0 <= k < |d.invites| && d.invites[k].accepted ==> d'.invites[k].accepted)
  }

  ghost predicate SessionsEvolve(sessions: seq<Session>, sessions': seq<Session>) {
    && |sessions| <= |sessions'|
    && (forall i :: 0 <= i < |sessions| ==> SessionEvolves(sessions[i], sessions'[i]))
    && (forall f: nat :: f < |sessions| && Dead(sessions, f) ==> Dead(sessions', f))
  }

  predicate SessionEvolves(s: Session, s': Session) {
    s' == s.(revoked := s'.revoked) && (s.revoked ==> s'.revoked)
  }

  ghost predicate MembersEvolve(members: map<Seat, Member>, members': map<Seat, Member>) {
    && members.Keys <= members'.Keys
    && forall m :: m in members ==>
         && members[m].version <= members'[m].version
         && (members[m].version == members'[m].version ==> members'[m] == members[m])
  }

  /** No member of the family is unrevoked. */
  ghost predicate Dead(sessions: seq<Session>, family: nat) {
    forall i :: 0 <= i < |sessions| && sessions[i].family == family ==> sessions[i].revoked
  }

  lemma EvolvesTransitive(a: Directory, b: Directory, c: Directory)
    requires Evolves(a, b) && Evolves(b, c)
    ensures Evolves(a, c)
  {
    hide Dead;
    forall i | 0 <= i < |a.sessions| ensures SessionEvolves(a.sessions[i], c.sessions[i]) {
      assert SessionEvolves(a.sessions[i], b.sessions[i]) && SessionEvolves(b.sessions[i], c.sessions[i]);
    }
  }

  lemma NothingEvolves(d: Directory)
    ensures Evolves(d, d)
  {
    hide Dead;
  }

  lemma ChainRevoked(sessions: seq<Session>, which: Which)
    requires ChainOk(sessions)
    ensures ChainOk(RevokeWhere(sessions, which)) && SessionsEvolve(sessions, RevokeWhere(sessions, which))
  {
    hide Matches;
    var sessions' := RevokeWhere(sessions, which);
    forall i | 0 <= i < |sessions| ensures RowOk(sessions', i) && SessionEvolves(sessions[i], sessions'[i]) {
      assert RowOk(sessions, i);
    }
    forall i, j | 0 <= i < j < |sessions'| ensures FollowsOk(sessions'[i], i, sessions'[j]) {
      assert FollowsOk(sessions[i], i, sessions[j]);
    }
  }

  /** A new family of one. */
  lemma ChainStarts(sessions: seq<Session>, s: Session)
    requires ChainOk(sessions) && s.family == |sessions| && s.rotatedFrom.None?
    ensures ChainOk(sessions + [s]) && SessionsEvolve(sessions, sessions + [s])
  {
    var sessions' := sessions + [s];
    forall i | 0 <= i < |sessions'| ensures RowOk(sessions', i) {
      if i < |sessions| {
        assert RowOk(sessions, i);
      }
    }
    forall i, j | 0 <= i < j < |sessions'| ensures FollowsOk(sessions'[i], i, sessions'[j]) {
      if j < |sessions| {
        assert FollowsOk(sessions[i], i, sessions[j]);
      } else {
        assert RowOk(sessions, i);
      }
    }
  }

  /** The unrevoked member of a family is its newest, so its successor extends the chain. */
  lemma ChainExtends(sessions: seq<Session>, token: nat, s: Session)
    requires ChainOk(sessions) && token < |sessions| && !sessions[token].revoked
    requires SameHolding(sessions[token], s) && s.rotatedFrom == Some(token)
    ensures var sessions' := sessions[token := sessions[token].(revoked := true)] + [s];
            ChainOk(sessions') && SessionsEvolve(sessions, sessions')
  {
    var sessions' := sessions[token := sessions[token].(revoked := true)] + [s];
    forall i | 0 <= i < |sessions'| ensures RowOk(sessions', i) {
      if i < |sessions| {
        assert RowOk(sessions, i);
      } else {
        assert RowOk(sessions, token);
      }
    }
    forall i, j | 0 <= i < j < |sessions'| ensures FollowsOk(sessions'[i], i, sessions'[j]) {
      if j < |sessions| {
        assert FollowsOk(sessions[i], i, sessions[j]);
      } else if i < token {
        assert FollowsOk(sessions[i], i, sessions[token]);
      } else if i > token {
        assert FollowsOk(sessions[token], token, sessions[i]);
      }
    }
    forall f: nat | f < |sessions| && Dead(sessions, f) ensures Dead(sessions', f) {
      assert f != sessions[token].family;
    }
  }

  /** Revoking rows keeps the directory. */
  lemma RevokeKeeps(d: Directory, which: Which)
    requires Inv(d)
    ensures var d' := d.(sessions := RevokeWhere(d.sessions, which)); Inv(d') && Evolves(d, d')
  {
    hide OwnersOk, ChainOk, SessionsEvolve, Matches;
    ChainRevoked(d.sessions, which);
    SameOwners(d, d.(sessions := RevokeWhere(d.sessions, which)));
  }

  lemma SameOwners(d: Directory, d': Directory)
    requires OwnersOk(d) && d'.members == d.members && d'.workspaces.Keys == d.workspaces.Keys
    ensures OwnersOk(d')
  {
  }

  lemma NewSessionKeeps(d: Directory, uid: string, wid: string, expires: Time)
    requires Inv(d)
    ensures Inv(NewSession(d, uid, wid, expires, None, None).0)
    ensures Evolves(d, NewSession(d, uid, wid, expires, None, None).0)
  {
    hide OwnersOk, ChainOk, SessionsEvolve;
    NothingEvolves(d);
    var (d', sid) := NewSession(d, uid, wid, expires, None, None);
    if sid.Some? {
      ChainStarts(d.sessions, d'.sessions[|d.sessions|]);
      SameOwners(d, d');
    }
  }

  lemma RotateKeeps(d: Directory, token: nat, now: Time)
    requires Inv(d)
    ensures Inv(Rotate(d, token, now).0) && Evolves(d, Rotate(d, token, now).0)
  {
    hide OwnersOk, ChainOk, SessionsEvolve;
    NothingEvolves(d);
    if token < |d.sessions| {
      var s := d.sessions[token];
      if !Usable(s, now) || IdentityVersion(d, s.user, s.workspace) != Some(s.version) {
        RevokeKeeps(d, OfFamily(s.family));
      } else {
        var d' := Rotate(d, token, now).0;
        ChainExtends(d.sessions, token, d'.sessions[|d.sessions|]);
        SameOwners(d, d');
      }
    }
  }

  lemma RevokeMembershipKeeps(d: Directory, actor: string, wid: string, target: string)
    requires Inv(d)
    ensures Inv(RevokeMembership(d, actor, wid, target).0)
    ensures Evolves(d, RevokeMembership(d, actor, wid, target).0)
  {
    var (d', done) := RevokeMembership(d, actor, wid, target);
    if done {
      RevokeKeeps(d, OfSeat(target, wid));
      forall w | w in d'.workspaces ensures HasOwner(d'.members, w) {
        OwnerRemains(d, wid, target, w);
      }
    }
  }

  /** Revoking one seat, unless it is the last owner's, leaves every workspace an owner. */
  lemma OwnerRemains(d: Directory, wid: string, target: string, w: string)
    requires OwnersOk(d) && w in d.workspaces && (wid, target) in d.members
    requires d.members[(wid, target)].active
    requires d.members[(wid, target)].role == OWNER ==> |ActiveOwners(d, wid)| > LAST_OWNER_GUARD
    ensures var m := d.members[(wid, target)];
            HasOwner(d.members[(wid, target) := m.(active := false, version := m.version + 1)], w)
  {
    var seat := (wid, target);
    if w == wid && d.members[seat].role == OWNER {
      var others := ActiveOwners(d, wid) - {seat};
      assert ActiveOwners(d, wid) == others + {seat};
      assert others != {};
      var o :| o in others;
    } else {
      assert HasOwner(d.members, w);
      var o :| o in d.members && o.0 == w && d.members[o].role == OWNER && d.members[o].active;
      assert o != seat;
    }
  }

  lemma AcceptKeeps(d: Directory, uid: string, inv: nat, now: Time)
    requires Inv(d)
    ensures Inv(Accept(d, uid, inv, now).0) && Evolves(d, Accept(d, uid, inv, now).0)
  {
    hide ChainOk, SessionsEvolve, OwnersOk, HasOwner;
    NothingEvolves(d);
    var (d', done) := Accept(d, uid, inv, now);
    if done {
      var seat := (d.invites[inv].workspace, uid);
      if ActiveMember(d, uid, seat.0) {
        SameOwners(d, d');
      } else {
        GrantKeepsOwners(d, seat, d'.members[seat]);
        SameOwners(d.(members := d'.members), d');
      }
    }
  }

  lemma CreateWorkspaceKeeps(d: Directory, uid: string, wid: string)
    requires Inv(d)
    ensures Inv(CreateWorkspace(d, uid, wid)) && Evolves(d, CreateWorkspace(d, uid, wid))
  {
    hide ChainOk, SessionsEvolve, OwnersOk, HasOwner, ActiveUser;
    NothingEvolves(d);
    var d' := CreateWorkspace(d, uid, wid);
    if d' != d {
      assert (wid, uid) !in d.members;
      NewOwner(d, wid, uid);
    }
  }

  lemma NewOwner(d: Directory, wid: string, uid: string)
    requires OwnersOk(d) && wid !in d.workspaces && (wid, uid) !in d.members
    ensures OwnersOk(d.(workspaces := d.workspaces[wid := true],
                        members := d.members[(wid, uid) := Member(OWNER, true, 1)]))
  {
    var members' := d.members[(wid, uid) := Member(OWNER, true, 1)];
    assert (wid, uid) in members';
    forall w | w in d.workspaces ensures HasOwner(members', w) {
      var o :| o in d.members && o.0 == w && d.members[o].role == OWNER && d.members[o].active;
      assert o in members';
    }
  }

  /** Granting a seat that is not an active owner's keeps every owner. */
  lemma GrantKeepsOwners(d: Directory, seat: Seat, m: Member)
    requires OwnersOk(d) && (seat in d.members ==> !d.members[seat].active)
    ensures OwnersOk(d.(members := d.members[seat := m]))
  {
    forall w | w in d.workspaces ensures HasOwner(d.members[seat := m], w) {
      var o :| o in d.members && o.0 == w && d.members[o].role == OWNER && d.members[o].active;
      assert o != seat && o in d.members[seat := m];
    }
  }

  /** Every operation keeps the invariant and undoes nothing. */
  lemma ApplyKeeps(d: Directory, op: Op)
    requires Inv(d)
    ensures Inv(Apply(d, op)) && Evolves(d, Apply(d, op))
  {
    hide ChainOk, SessionsEvolve, OwnersOk, NewSession, RevokeMembership, Accept, Rotate, CreateWorkspace;
    NothingEvolves(d);
    match op
    case OpCreateSession(uid, wid, ttl, now) => NewSessionKeeps(d, uid, wid, now + ttl as real);
    case OpRotate(token, now) => RotateKeeps(d, token, now);
    case OpLogout(token) => if token < |d.sessions| { RevokeKeeps(d, OfFamily(d.sessions[token].family)); }
    case OpLogoutEverywhere(uid) => RevokeKeeps(d, OfUser(uid));
    case OpRevokeMembership(actor, wid, target) => RevokeMembershipKeeps(d, actor, wid, target);
    case OpAccept(uid, inv, now) => AcceptKeeps(d, uid, inv, now);
    case OpInvite(actor, wid, email, role, ttl, now) => SameOwners(d, Apply(d, op));
    case OpWorkspace(uid, wid) => CreateWorkspaceKeeps(d, uid, wid);
    case OpUserStatus(uid, user) => SameOwners(d, Apply(d, op));
    case OpWorkspaceStatus(wid, active) => SameOwners(d, Apply(d, op));
  }

  // -------------------------------------------------------------------- over a run

  ghost predicate Behaviour(trace: seq<Directory>, ops: seq<Op>) {
    && |trace| == |ops| + 1
    && trace[0] == Directory(map[], map[], map[], [], [])
    && forall k :: 0 <= k < |ops| ==> trace[k + 1] == Apply(trace[k], ops[k])
  }

  lemma {:induction false} AlwaysInv(trace: seq<Directory>, ops: seq<Op>, k: nat)
    requires Behaviour(trace, ops) && k < |trace|
    ensures Inv(trace[k])
  {
    if k > 0 {
      AlwaysInv(trace, ops, k - 1);
      ApplyKeeps(trace[k - 1], ops[k - 1]);
    }
  }

  lemma {:induction false} AlwaysEvolves(trace: seq<Directory>, ops: seq<Op>, i: nat, j: nat)
    requires Behaviour(trace, ops) && i <= j < |trace|
    ensures Evolves(trace[i], trace[j])
    decreases j - i
  {
    hide Dead, Inv, Apply;
    if i < j {
      AlwaysEvolves(trace, ops, i, j - 1);
      AlwaysInv(trace, ops, j - 1);
      ApplyKeeps(trace[j - 1], ops[j - 1]);
      EvolvesTransitive(trace[i], trace[j - 1], trace[j]);
    }
  }

  /** Main result: once a revoked or expired token, or one whose membership has changed, is
      presented, no member of its family, old or new, is ever valid or rotated again. */
  lemma ReplayKillsFamily(trace: seq<Directory>, ops: seq<Op>, k: nat, later: nat, sid: nat)
    requires Behaviour(trace, ops) && k < later < |trace|
    requires ops[k].OpRotate? && ops[k].token < |trace[k].sessions|
    requires Rotate(trace[k], ops[k].token, ops[k].now).1.None?
    requires sid < |trace[later].sessions|
    requires trace[later].sessions[sid].family == trace[k].sessions[ops[k].token].family
    ensures forall uid, wid, now :: !Validates(trace[later], sid, uid, wid, now)
    ensures forall now :: Rotate(trace[later], sid, now).1.None?
  {
    hide ChainOk;
    var family := trace[k].sessions[ops[k].token].family;
    AlwaysInv(trace, ops, k);
    FamilyIsSession(trace[k].sessions, ops[k].token);
    assert Dead(trace[k + 1].sessions, family);
    AlwaysEvolves(trace, ops, k + 1, later);
  }

  lemma FamilyIsSession(sessions: seq<Session>, i: nat)
    requires ChainOk(sessions) && i < |sessions|
    ensures sessions[i].family < |sessions|
  {
    assert RowOk(sessions, i);
  }

  /** Main result: a workspace session issued before its membership was revoked never
      validates again and is never rotated, even after the membership is granted again. */
  lemma RevokedMembershipEndsSessions(trace: seq<Directory>, ops: seq<Op>, k: nat, later: nat, sid: nat)
    requires Behaviour(trace, ops) && k < later < |trace|
    requires ops[k].OpRevokeMembership? && RevokeMembership(trace[k], ops[k].actor, ops[k].wid, ops[k].target).1
    requires sid < |trace[k].sessions|
    requires trace[k].sessions[sid].user == ops[k].target && trace[k].sessions[sid].workspace == ops[k].wid
    ensures var seat := (ops[k].wid, ops[k].target);
            seat in trace[later].members && trace[k].sessions[sid].version < trace[later].members[seat].version
    ensures forall uid, wid, now :: !Validates(trace[later], sid, uid, wid, now)
    ensures forall now :: Rotate(trace[later], sid, now).1.None?
  {
    hide ChainOk, OwnersOk;
    AlwaysInv(trace, ops, k);
    var seat := (ops[k].wid, ops[k].target);
    assert trace[k + 1].members[seat].version == trace[k].members[seat].version + 1;
    assert ops[k].wid != ACCOUNT;
    assert trace[k].sessions[sid].version <= trace[k].members[seat].version;
    assert trace[k + 1].sessions[sid].revoked;
    AlwaysEvolves(trace, ops, k + 1, later);
    assert SessionEvolves(trace[k + 1].sessions[sid], trace[later].sessions[sid]);
  }

  /** Main result: at every point a family has at most one session that can still be used,
      and every member shares the first one's holder and expiry. */
  lemma {:induction false} FamilyIsOneChain(trace: seq<Directory>, ops: seq<Op>, k: nat, i: nat, j: nat)
    requires Behaviour(trace, ops) && k < |trace| && i < j < |trace[k].sessions|
    requires trace[k].sessions[i].family == trace[k].sessions[j].family
    ensures trace[k].sessions[i].revoked && SameHolding(trace[k].sessions[i], trace[k].sessions[j])
    ensures trace[k].sessions[j].rotatedFrom.Some?
    ensures forall m :: trace[k].sessions[j].rotatedFrom.value < m < j ==>
              trace[k].sessions[m].family != trace[k].sessions[j].family
    decreases j
  {
    hide SeatsOk, OwnersOk;
    AlwaysInv(trace, ops, k);
    assert FollowsOk(trace[k].sessions[i], i, trace[k].sessions[j]) && RowOk(trace[k].sessions, j);
    var p := trace[k].sessions[j].rotatedFrom.value;
    forall m | p < m < j ensures trace[k].sessions[m].family != trace[k].sessions[j].family {
      assert FollowsOk(trace[k].sessions[m], m, trace[k].sessions[j]);
    }
    assert SameHolding(trace[k].sessions[p], trace[k].sessions[j]);
    if i < p {
      FamilyIsOneChain(trace, ops, k, i, p);
    }
  }

  /** No sequence of operations leaves a workspace without an owner's active membership. */
  lemma WorkspaceKeepsOwner(trace: seq<Directory>, ops: seq<Op>, k: nat, wid: string)
    requires Behaviour(trace, ops) && k < |trace| && wid in trace[k].workspaces
    ensures HasOwner(trace[k].members, wid)
  {
    AlwaysInv(trace, ops, k);
  }

  /** An invitation is accepted at most once. */
  lemma InvitationIsSingleUse(trace: seq<Directory>, ops: seq<Op>, i: nat, j: nat)
    requires Behaviour(trace, ops) && i < j < |ops|
    requires ops[i].OpAccept? && ops[j].OpAccept? && ops[i].inv == ops[j].inv
    requires Accept(trace[i], ops[i].uid, ops[i].inv, ops[i].now).1
    ensures !Accept(trace[j], ops[j].uid, ops[j].inv, ops[j].now).1
  {
    hide ChainOk, Dead;
    AlwaysEvolves(trace, ops, i + 1, j);
    assert trace[i + 1] == Apply(trace[i], ops[i]);
  }

  // --------------------------------------------------------------------- the store

  /** The directory as an object over its tables; each method is one write transaction. */
  class IdentityStore {
    var users: map<string, User>
    var workspaces: map<string, bool>
    var members: map<Seat, Member>
    var invites: seq<Invite>
    var sessions: seq<Session>

    function View(): Directory
      reads this
    {
      Directory(users, workspaces, members, invites, sessions)
    }

    ghost predicate Valid()
      reads this
    {
      Inv(View())
    }

    constructor ()
      ensures Valid() && View() == Directory(map[], map[], map[], [], [])
    {
      users, workspaces, members, invites, sessions := map[], map[], map[], [], [];
    }

    /** `UPDATE p_sessions SET revoked_at=? WHERE ...`, row by row. */
    method RevokeRows(which: Which)
      modifies `sessions
      ensures sessions == RevokeWhere(old(sessions), which)
    {
      for i := 0 to |sessions|
        invariant |sessions| == |old(sessions)|
        invariant forall j :: 0 <= j < |sessions| ==>
                    sessions[j] == if j < i && Matches(old(sessions)[j], which) then old(sessions)[j].(revoked := true)
                                   else old(sessions)[j]
      {
        if Matches(sessions[i], which) {
          sessions := sessions[i := sessions[i].(revoked := true)];
        }
      }
    }

    /** `_new_session`. */
    method InsertSession(uid: string, wid: string, expires: Time, family: Option<nat>, previous: Option<nat>)
      returns (sid: Option<nat>)
      modifies `sessions
      ensures var r := NewSession(old(View()), uid, wid, expires, family, previous);
              View() == r.0 && sid == r.1
    {
      var version := IdentityVersion(View(), uid, wid);
      if version.None? { return None; }
      var id := |sessions|;
      sessions := sessions
        + [Session(uid, wid, expires, false, previous, if family.Some? then family.value else id, version.value)];
      return Some(id);
    }

    /** `create_session`. */
    method Create(uid: string, wid: string, ttl: int, now: Time) returns (sid: Option<nat>)
      requires Valid()
      modifies `sessions
      ensures Valid()
      ensures var r := CreateSession(old(View()), uid, wid, ttl, now); View() == r.0 && sid == r.1
    {
      ApplyKeeps(View(), OpCreateSession(uid, wid, ttl, now));
      hide Inv, NewSession;
      if !(MIN_SESSION_TTL <= ttl <= MAX_SESSION_TTL) { return None; }
      sid := InsertSession(uid, wid, now + ttl as real, None, None);
    }

    /** `rotate_session`. The revocation of a replayed family is committed before the caller
        is told that its token was refused. */
    method RotateSession(token: nat, now: Time) returns (sid: Option<nat>)
      requires Valid()
      modifies `sessions
      ensures Valid()
      ensures var r := Rotate(old(View()), token, now); View() == r.0 && sid == r.1
    {
      ApplyKeeps(View(), OpRotate(token, now));
      hide Inv, NewSession, RevokeWhere;
      if token >= |sessions| { return None; }
      var s := sessions[token];
      if s.revoked || s.expires <= now {
        RevokeRows(OfFamily(s.family));
        return None;
      }
      var version := IdentityVersion(View(), s.user, s.workspace);
      if version != Some(s.version) {
        RevokeRows(OfFamily(s.family));
        return None;
      }
      sessions := sessions[token := s.(revoked := true)];
      sid := InsertSession(s.user, s.workspace, s.expires, Some(s.family), Some(token));
    }

    /** `revoke_session`. */
    method LogoutSession(token: nat)
      requires Valid()
      modifies `sessions
      ensures Valid() && View() == Logout(old(View()), token)
    {
      ApplyKeeps(View(), OpLogout(token));
      hide Inv, Evolves, RevokeWhere;
      if token < |sessions| {
        RevokeRows(OfFamily(sessions[token].family));
      }
    }

    method CountOwners(wid: string) returns (n: nat)
      ensures n == |ActiveOwners(View(), wid)|
    {
      var owners := set m | m in members && m.0 == wid && members[m].role == OWNER && members[m].active;
      assert owners == ActiveOwners(View(), wid);
      return |owners|;
    }

    /** `revoke_membership`. */
    method Revoke(actor: string, wid: string, target: string) returns (done: bool)
      requires Valid()
      modifies `members, `sessions
      ensures Valid()
      ensures var r := RevokeMembership(old(View()), actor, wid, target); View() == r.0 && done == r.1
    {
      hide Inv, Evolves, RevokeWhere, ActiveOwner, ActiveOwners;
      RevokeMembershipKeeps(View(), actor, wid, target);
      if !ActiveOwner(View(), actor, wid) { return false; }
      var seat := (wid, target);
      if seat !in members || !members[seat].active { return false; }
      if members[seat].role == OWNER {
        var owners := CountOwners(wid);
        if owners <= LAST_OWNER_GUARD { return false; }
      }
      members := members[seat := members[seat].(active := false, version := members[seat].version + 1)];
      RevokeRows(OfSeat(target, wid));
      return true;
    }

    /** `accept_invitation`. */
    method AcceptInvitation(uid: string, inv: nat, now: Time) returns (done: bool)
      requires Valid()
      modifies `members, `invites
      ensures Valid()
      ensures var r := Accept(old(View()), uid, inv, now); View() == r.0 && done == r.1
    {
      hide Inv, Evolves, InviteOk, ActiveMember;
      AcceptKeeps(View(), uid, inv, now);
      if !ActiveUser(View(), uid) || !InviteOk(View(), inv, users[uid].email, now) { return false; }
      assert inv < |invites| by { InviteExists(View(), inv, users[uid].email, now); }
      var invite := invites[inv];
      var seat := (invite.workspace, uid);
      if !ActiveMember(View(), uid, invite.workspace) {
        if seat in members {
          members := members[seat := Member(invite.role, true, members[seat].version + 1)];
        } else {
          members := members[seat := Member(invite.role, true, 1)];
        }
      }
      invites := invites[inv := invite.(accepted := true)];
      return true;
    }
  }

  lemma InviteExists(d: Directory, inv: nat, email: string, now: Time)
    requires InviteOk(d, inv, email, now)
    ensures inv < |d.invites|
  {
  }
}
