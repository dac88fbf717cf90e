/** The directory by its causes: who gave whom which role, and how long a session lives. */
module Memberships {
  import opened Basics
  import opened Sessions

  // ------------------------------------------------------------------------- roles

  /** An active user holding an active membership of an active workspace. */
  predicate Seated(d: Directory, uid: string, wid: string) {
    && (wid, uid) in d.members && d.members[(wid, uid)].active
    && wid in d.workspaces && d.workspaces[wid] && uid in d.users && d.users[uid].active
  }

  predicate Owns(d: Directory, uid: string, wid: string) {
    Seated(d, uid, wid) && d.members[(wid, uid)].role == "owner"
  }

  /** The invitation is good now, was made out to this user's address, and still has an owner
      of its workspace behind it. */
  predicate MadeOutTo(d: Directory, inv: nat, uid: string, now: Time) {
    && inv < |d.invites| && uid in d.users && d.users[uid].active
    && d.invites[inv].email == d.users[uid].email
    && !d.invites[inv].accepted && !d.invites[inv].revoked && now < d.invites[inv].expires
    && Owns(d, d.invites[inv].creator, d.invites[inv].workspace)
  }

  /** The seat is given this role, under a version nobody has held it under before. */
  predicate Granted(d: Directory, seat: Seat, role: string, m: Member) {
    && (seat in d.members ==> !d.members[seat].active)
    && m.role == role && m.active && m.version == if seat in d.members then d.members[seat].version + 1 else 1
  }

  /** An invitation is accepted by whom it was made out to and gives its own role, unless its
      user is seated already. */
  lemma AcceptByCause(d: Directory, uid: string, inv: nat, now: Time)
    ensures var (d', done) := Accept(d, uid, inv, now);
            && (done <==> MadeOutTo(d, inv, uid, now))
            && (!done ==> d' == d)
            && (done ==>
                  var seat := (d.invites[inv].workspace, uid);
                  && d' == d.(members := d'.members, invites := d.invites[inv := d.invites[inv].(accepted := true)])
                  && seat in d'.members && d'.members == d.members[seat := d'.members[seat]]
                  && (if seat in d.members && d.members[seat].active then d'.members[seat] == d.members[seat]
                      else Granted(d, seat, d.invites[inv].role, d'.members[seat])))
  {
  }

  /** Why a membership row is there, or changed. */
  predicate RowCause(d: Directory, op: Op, seat: Seat, m: Member) {
    match op
    case OpAccept(uid, inv, now) =>
      && uid == seat.1 && MadeOutTo(d, inv, uid, now) && d.invites[inv].workspace == seat.0
      && Granted(d, seat, d.invites[inv].role, m)
    case OpWorkspace(uid, wid) =>
      && seat == (wid, uid) && uid in d.users && d.users[uid].active && wid !in d.workspaces
      && m == Member("owner", true, 1)
    case OpRevokeMembership(actor, wid, target) =>
      && seat == (wid, target) && Owns(d, actor, wid) && seat in d.members && d.members[seat].active
      && m == d.members[seat].(active := false, version := d.members[seat].version + 1)
      && (d.members[seat].role == "owner" ==> OtherOwner(d, seat))
    case _ => false
  }

  predicate OtherOwner(d: Directory, seat: Seat) {
    exists o :: o in d.members && o != seat && o.0 == seat.0 && d.members[o].role == "owner" && d.members[o].active
  }

  /** Whenever a membership row is new or changes, one operation did that, for its cause. */
  lemma RowsChangeForCause(d: Directory, op: Op, seat: Seat)
    requires Sessions.Inv(d) && seat in Apply(d, op).members
    ensures seat !in d.members || Apply(d, op).members[seat] != d.members[seat] ==>
              RowCause(d, op, seat, Apply(d, op).members[seat])
  {
    hide Sessions.Inv, Accept, RevokeMembership, NewSession, Rotate, MadeOutTo, RevokeWhere, Owns;
    match op
    case OpAccept(uid, inv, now) => AcceptByCause(d, uid, inv, now);
    case OpRevokeMembership(actor, wid, target) => RevokeByCause(d, actor, wid, target);
    case OpRotate(token, now) => RotateKeepsSeats(d, token, now);
    case OpCreateSession(uid, wid, ttl, now) => NewSessionKeepsSeats(d, uid, wid, now + ttl as real, None, None);
    case OpWorkspace(uid, wid) =>
    case _ =>
  }

  lemma NewSessionKeepsSeats(
    d: Directory, uid: string, wid: string, expires: Time, family: Option<nat>, previous: Option<nat>)
    ensures var d' := NewSession(d, uid, wid, expires, family, previous).0;
            d'.members == d.members && d'.users == d.users && d'.workspaces == d.workspaces && d'.invites == d.invites
  {
  }

  lemma RotateKeepsSeats(d: Directory, token: nat, now: Time)
    ensures var d' := Rotate(d, token, now).0;
            d'.members == d.members && d'.users == d.users && d'.workspaces == d.workspaces && d'.invites == d.invites
  {
  }

  /** A membership is revoked by an owner, never the last owner's. */
  lemma RevokeByCause(d: Directory, actor: string, wid: string, target: string)
    ensures var (d', done) := RevokeMembership(d, actor, wid, target);
            var seat := (wid, target);
            && (done <==> && Owns(d, actor, wid) && seat in d.members && d.members[seat].active
                          && (d.members[seat].role == "owner" ==> OtherOwner(d, seat)))
            && (!done ==> d' == d)
            && (done ==>
                  && d' == d.(members := d'.members, sessions := d'.sessions)
                  && d'.members == d.members[seat := d.members[seat].(active := false,
                                                                     version := d.members[seat].version + 1)]
                  && EndsExactly(d.sessions, d'.sessions, set i | 0 <= i < |d.sessions|
                                   && d.sessions[i].user == target && d.sessions[i].workspace == wid))
  {
    hide OtherOwner;
    var seat := (wid, target);
    if seat in d.members && d.members[seat].active && d.members[seat].role == "owner" {
      OwnersCount(d, seat);
    }
  }

  /** More than one owner means another one. */
  lemma OwnersCount(d: Directory, seat: Seat)
    requires seat in d.members && d.members[seat].active && d.members[seat].role == "owner"
    ensures OtherOwner(d, seat) <==> |ActiveOwners(d, seat.0)| > 1
  {
    var owners := ActiveOwners(d, seat.0);
    assert seat in owners;
    if OtherOwner(d, seat) {
      var o :| o in d.members && o != seat && o.0 == seat.0 && d.members[o].role == "owner" && d.members[o].active;
      assert {seat, o} <= owners && |{seat, o}| == 2;
      Smaller({seat, o}, owners);
    } else {
      assert owners == {seat};
    }
  }

  lemma Smaller<T>(a: set<T>, b: set<T>)
    requires a <= b
    ensures |a| <= |b|
  {
    if a != {} {
      var x :| x in a;
      Smaller(a - {x}, b - {x});
    }
  }

  /** Exactly these sessions are revoked, besides those that were; nothing else changed. */
  predicate EndsExactly(sessions: seq<Session>, sessions': seq<Session>, ended: set<int>) {
    && |sessions'| == |sessions|
    && forall i :: 0 <= i < |sessions| ==>
         sessions'[i] == sessions[i].(revoked := sessions[i].revoked || i in ended)
  }

  /** The operation makes out this invitation. */
  predicate MakesInvite(d: Directory, op: Op, invite: Invite) {
    && op.OpInvite? && op.actor == invite.creator && op.wid == invite.workspace && op.email == invite.email
    && op.role == invite.role && invite.role in {"operator", "integrator", "viewer"}
    && 300 <= op.ttl <= 604800 && invite.expires == op.now + op.ttl as real
    && Owns(d, op.actor, op.wid)
  }

  /** Every invitation was made out by an owner of its workspace. */
  lemma {:induction false} InvitationWasMade(trace: seq<Directory>, ops: seq<Op>, k: nat, inv: nat) returns (j: nat)
    requires Sessions.Behaviour(trace, ops) && k < |trace| && inv < |trace[k].invites|
    ensures j < k && j < |ops| && MakesInvite(trace[j], ops[j], trace[k].invites[inv])
  {
    hide MakesInvite, Apply;
    j := 0;
    if k > 0 {
      InviteStep(trace[k - 1], ops[k - 1], inv);
      if inv < |trace[k - 1].invites| {
        j := InvitationWasMade(trace, ops, k - 1, inv);
        SameInvite(trace[j], ops[j], trace[k - 1].invites[inv], trace[k].invites[inv]);
      } else {
        j := k - 1;
      }
    }
  }

  predicate InviteTerms(a: Invite, b: Invite) { b == a.(accepted := b.accepted, revoked := b.revoked) }

  lemma SameInvite(d: Directory, op: Op, a: Invite, b: Invite)
    requires MakesInvite(d, op, a) && InviteTerms(a, b)
    ensures MakesInvite(d, op, b)
  {
  }

  lemma InviteStep(d: Directory, op: Op, inv: nat)
    requires inv < |Apply(d, op).invites|
    ensures if inv < |d.invites| then InviteTerms(d.invites[inv], Apply(d, op).invites[inv])
            else MakesInvite(d, op, Apply(d, op).invites[inv])
  {
    hide NewSession, Rotate, RevokeWhere, RevokeMembership, Accept, MadeOutTo;
    match op
    case OpAccept(uid, i, now) =>
      AcceptByCause(d, uid, i, now);
      if MadeOutTo(d, i, uid, now) { InviteExistsToo(d, i, uid, now); }
    case OpRotate(token, now) => RotateKeepsSeats(d, token, now);
    case OpCreateSession(uid, wid, ttl, now) => NewSessionKeepsSeats(d, uid, wid, now + ttl as real, None, None);
    case OpRevokeMembership(actor, wid, target) => RevokeByCause(d, actor, wid, target);
    case _ =>
  }

  /** The operation founds the workspace of this seat, with its user as owner. */
  predicate Founds(d: Directory, op: Op, seat: Seat) {
    op == OpWorkspace(seat.1, seat.0) && seat.0 !in d.workspaces
  }

  /** The seat's user accepts an invitation to it, for this role. */
  predicate Joins(d: Directory, op: Op, seat: Seat, role: string) {
    && op.OpAccept? && op.uid == seat.1 && MadeOutTo(d, op.inv, op.uid, op.now)
    && d.invites[op.inv].workspace == seat.0 && d.invites[op.inv].role == role
  }

  /** Main result: whoever holds a role in a workspace was given exactly that role: by
      founding it, as its owner, or by accepting an invitation for that role, made out to
      that user's address by an owner. */
  lemma {:induction false} RoleWasGranted(trace: seq<Directory>, ops: seq<Op>, k: nat, seat: Seat)
    requires Sessions.Behaviour(trace, ops) && k < |trace| && seat in trace[k].members
    ensures || (trace[k].members[seat].role == "owner" && exists g :: 0 <= g < k && Founds(trace[g], ops[g], seat))
            || exists j, g ::
                 && 0 <= j < g < k && Joins(trace[g], ops[g], seat, trace[k].members[seat].role)
                 && MakesInvite(trace[j], ops[j], trace[g].invites[ops[g].inv])
  {
    hide Sessions.Inv, Apply, MakesInvite, MadeOutTo, Owns;
    if k > 0 {
      Sessions.AlwaysInv(trace, ops, k - 1);
      if seat in trace[k - 1].members && trace[k].members[seat].role == trace[k - 1].members[seat].role {
        RoleWasGranted(trace, ops, k - 1, seat);
      } else {
        RowsChangeForCause(trace[k - 1], ops[k - 1], seat);
        if ops[k - 1].OpAccept? {
          InviteExistsToo(trace[k - 1], ops[k - 1].inv, ops[k - 1].uid, ops[k - 1].now);
          var j := InvitationWasMade(trace, ops, k - 1, ops[k - 1].inv);
          assert Joins(trace[k - 1], ops[k - 1], seat, trace[k].members[seat].role);
        } else {
          assert Founds(trace[k - 1], ops[k - 1], seat);
        }
      }
    }
  }

  lemma InviteExistsToo(d: Directory, inv: nat, uid: string, now: Time)
    requires MadeOutTo(d, inv, uid, now)
    ensures inv < |d.invites|
  {
  }

  /** Main result: nobody becomes an owner but by founding the workspace. */
  lemma OnlyFoundersOwn(trace: seq<Directory>, ops: seq<Op>, k: nat, seat: Seat)
    requires Sessions.Behaviour(trace, ops) && k < |trace| && seat in trace[k].members
    requires trace[k].members[seat].role == "owner"
    ensures exists g :: 0 <= g < k && Founds(trace[g], ops[g], seat)
  {
    hide Sessions.Behaviour, MadeOutTo, Owns;
    RoleWasGranted(trace, ops, k, seat);
  }

  /** Main result: a membership changes only by founding, joining or revocation, each by the
      one it takes. */
  lemma MembershipsChangeForCause(trace: seq<Directory>, ops: seq<Op>, k: nat, seat: Seat)
    requires Sessions.Behaviour(trace, ops) && k < |ops| && seat in trace[k + 1].members
    ensures seat !in trace[k].members || trace[k + 1].members[seat] != trace[k].members[seat] ==>
              RowCause(trace[k], ops[k], seat, trace[k + 1].members[seat])
  {
    hide Sessions.Inv, Apply, RowCause;
    Sessions.AlwaysInv(trace, ops, k);
    RowsChangeForCause(trace[k], ops[k], seat);
  }

  // ---------------------------------------------------------------------- sessions

  /** Whom a session can be issued to: an active user, for the account or a seat. */
  predicate MaySignIn(d: Directory, uid: string, wid: string) {
    uid in d.users && d.users[uid].active && (wid == ACCOUNT || Seated(d, uid, wid))
  }

  /** The version sessions of this holder are issued under now. */
  function VersionNow(d: Directory, uid: string, wid: string): nat
    requires MaySignIn(d, uid, wid)
  {
    if wid == ACCOUNT then 0 else d.members[(wid, uid)].version
  }

  /** The session can be used now: neither revoked nor out of time, and its holder may still
      sign in under the same membership. */
  predicate Works(d: Directory, sid: nat, now: Time) {
    && sid < |d.sessions| && !d.sessions[sid].revoked && now < d.sessions[sid].expires
    && MaySignIn(d, d.sessions[sid].user, d.sessions[sid].workspace)
    && VersionNow(d, d.sessions[sid].user, d.sessions[sid].workspace) == d.sessions[sid].version
  }

  /** A session validates for its own holder alone, exactly while it works. */
  lemma ValidatesIff(d: Directory, sid: nat, uid: string, wid: string, now: Time)
    ensures Validates(d, sid, uid, wid, now) <==>
              Works(d, sid, now) && d.sessions[sid].user == uid && d.sessions[sid].workspace == wid
  {
  }

  /** Signing in gives a session that works until its time is up, and starts its family. */
  lemma CreateByCause(d: Directory, uid: string, wid: string, ttl: int, now: Time)
    ensures var (d', sid) := CreateSession(d, uid, wid, ttl, now);
            && (sid.Some? <==> 60 <= ttl <= 2592000 && MaySignIn(d, uid, wid))
            && (sid.None? ==> d' == d)
            && (sid.Some? ==>
                  && sid == Some(|d.sessions|) && d' == d.(sessions := d.sessions + [d'.sessions[|d.sessions|]])
                  && d'.sessions[|d.sessions|].family == |d.sessions|
                  && d'.sessions[|d.sessions|].user == uid && d'.sessions[|d.sessions|].workspace == wid
                  && forall t :: Works(d', |d.sessions|, t) <==> t < now + ttl as real)
  {
  }

  /** The sessions of one family. */
  function FamilyOf(d: Directory, family: nat): set<int> {
    set i | 0 <= i < |d.sessions| && d.sessions[i].family == family
  }

  /** A token that works is traded for one that works as long as it would have; any other
      ends its whole family, and an unknown one nothing. */
  lemma RotateByCause(d: Directory, token: nat, now: Time)
    ensures var (d', sid) := Rotate(d, token, now);
            && (sid.Some? <==> Works(d, token, now))
            && (token >= |d.sessions| ==> d' == d)
            && (token < |d.sessions| && !Works(d, token, now) ==>
                  && d' == d.(sessions := d'.sessions)
                  && EndsExactly(d.sessions, d'.sessions, FamilyOf(d, d.sessions[token].family)))
            && (Works(d, token, now) ==>
                  && sid == Some(|d.sessions|) && d' == d.(sessions := d'.sessions)
                  && |d'.sessions| == |d.sessions| + 1
                  && EndsExactly(d.sessions, d'.sessions[..|d.sessions|], {token})
                  && d'.sessions[|d.sessions|] == Session(
                       d.sessions[token].user, d.sessions[token].workspace, d.sessions[token].expires, false,
                       Some(token), d.sessions[token].family, d.sessions[token].version)
                  && forall t :: Works(d', |d.sessions|, t) <==> Works(d, token, t))
  {
  }

  /** Logging out ends the family of a known token; logging out everywhere ends every session
      of an active user; and nothing else. */
  lemma LogoutByCause(d: Directory, token: nat, uid: string)
    ensures if token >= |d.sessions| then Logout(d, token) == d
            else
              && Logout(d, token) == d.(sessions := Logout(d, token).sessions)
              && EndsExactly(d.sessions, Logout(d, token).sessions, FamilyOf(d, d.sessions[token].family))
    ensures if uid in d.users && d.users[uid].active then
              && LogoutEverywhere(d, uid) == d.(sessions := LogoutEverywhere(d, uid).sessions)
              && EndsExactly(d.sessions, LogoutEverywhere(d, uid).sessions,
                             set i | 0 <= i < |d.sessions| && d.sessions[i].user == uid)
            else LogoutEverywhere(d, uid) == d
  {
  }

  /** Main result: only an owner invites, to any role but an owner's, for five minutes to a week;
      and only an active user founds a workspace, under a name nobody has. */
  lemma InviteByCause(
    d: Directory, actor: string, wid: string, email: string, role: string, ttl: int, now: Time, uid: string)
    ensures CreateInvitation(d, actor, wid, email, role, ttl, now)
         == if Owns(d, actor, wid) && role in {"operator", "integrator", "viewer"} && 300 <= ttl <= 604800
            then d.(invites := d.invites + [Invite(wid, email, role, now + ttl as real, false, false, actor)]) else d
    ensures CreateWorkspace(d, uid, wid)
         == if uid in d.users && d.users[uid].active && wid !in d.workspaces && wid != "__account__"
            then d.(workspaces := d.workspaces[wid := true],
                    members := d.members[(wid, uid) := Member("owner", true, 1)])
            else d
  {
  }

  /** What ends a session that works. */
  predicate Ends(d: Directory, op: Op, sid: nat)
    requires sid < |d.sessions|
  {
    var s := d.sessions[sid];
    match op
    case OpRotate(token, _) => token < |d.sessions| && d.sessions[token].family == s.family
    case OpLogout(token) => token < |d.sessions| && d.sessions[token].family == s.family
    case OpLogoutEverywhere(uid) => uid == s.user
    case OpRevokeMembership(actor, wid, target) => wid == s.workspace && target == s.user && Owns(d, actor, wid)
    case OpUserStatus(uid, user) => uid == s.user && !user.active
    case OpWorkspaceStatus(wid, active) => wid == s.workspace && !active
    case _ => false
  }

  lemma StaysUsable(d: Directory, op: Op, sid: nat, now: Time)
    requires Sessions.Inv(d) && Works(d, sid, now) && !Ends(d, op, sid)
    ensures Works(Apply(d, op), sid, now)
  {
    hide Sessions.Inv, Accept, RevokeMembership, Rotate, CreateSession;
    SeatsExist(d);
    match op
    case OpAccept(uid, inv, t) => AcceptByCause(d, uid, inv, t);
    case OpRevokeMembership(actor, wid, target) => RevokeByCause(d, actor, wid, target);
    case OpRotate(token, t) => RotateByCause(d, token, t);
    case OpCreateSession(uid, wid, ttl, t) => CreateByCause(d, uid, wid, ttl, t);
    case _ =>
  }

  lemma SeatsExist(d: Directory)
    requires Sessions.Inv(d)
    ensures forall m :: m in d.members ==> m.0 in d.workspaces
    ensures ACCOUNT !in d.workspaces
  {
    hide ChainOk, OwnersOk;
  }

  /** Main result: a session keeps working until its time is up, its family is rotated or
      logged out, its user logs out everywhere or is deactivated, its membership is revoked,
      or its workspace is suspended; nothing anybody else does ends it. */
  lemma {:induction false} WorksUntilEnded(
    trace: seq<Directory>, ops: seq<Op>, i: nat, j: nat, sid: nat, now: Time)
    requires Sessions.Behaviour(trace, ops) && i <= j < |trace| && Works(trace[i], sid, now)
    requires forall m :: i <= m < j && sid < |trace[m].sessions| ==> !Ends(trace[m], ops[m], sid)
    ensures Works(trace[j], sid, now)
    decreases j - i
  {
    hide Sessions.Inv, Apply, Works, Ends;
    if i < j {
      WorksUntilEnded(trace, ops, i, j - 1, sid, now);
      Sessions.AlwaysInv(trace, ops, j - 1);
      WorkingExists(trace[j - 1], sid, now);
      StaysUsable(trace[j - 1], ops[j - 1], sid, now);
    }
  }

  lemma WorkingExists(d: Directory, sid: nat, now: Time)
    requires Works(d, sid, now)
    ensures sid < |d.sessions|
  {
  }

  /** Main result: rotation buys no time. However often a session is rotated, no member of its
      family works after the time it was signed in for. */
  lemma FamilyRunsOut(trace: seq<Directory>, ops: seq<Op>, k: nat, later: nat, sid: nat, now: Time)
    requires Sessions.Behaviour(trace, ops) && k < later < |trace|
    requires ops[k].OpCreateSession? && trace[k + 1] != trace[k]
    requires sid < |trace[later].sessions| && trace[later].sessions[sid].family == |trace[k].sessions|
    requires now >= ops[k].now + ops[k].ttl as real
    ensures !Works(trace[later], sid, now)
  {
    hide Sessions.Inv, CreateSession, MaySignIn, Dead;
    var first := |trace[k].sessions|;
    CreatedFirst(trace[k], ops[k].uid, ops[k].wid, ops[k].ttl, ops[k].now);
    Sessions.AlwaysEvolves(trace, ops, k + 1, later);
    assert SessionEvolves(trace[k + 1].sessions[first], trace[later].sessions[first]);
    Sessions.AlwaysInv(trace, ops, later);
    FamilyStartsIt(trace[later], sid);
    if first < sid {
      Sessions.FamilyIsOneChain(trace, ops, later, first, sid);
    }
  }

  lemma CreatedFirst(d: Directory, uid: string, wid: string, ttl: int, now: Time)
    ensures var d' := CreateSession(d, uid, wid, ttl, now).0;
            d' != d ==>
              && |d'.sessions| == |d.sessions| + 1
              && d'.sessions[|d.sessions|].expires == now + ttl as real
              && d'.sessions[|d.sessions|].family == |d.sessions|
  {
  }

  lemma FamilyStartsIt(d: Directory, sid: nat)
    requires Sessions.Inv(d) && sid < |d.sessions|
    ensures d.sessions[sid].family <= sid
  {
    hide SeatsOk, OwnersOk;
    assert RowOk(d.sessions, sid);
  }
}
