/** Team membership (services/user_service.py, `create_team` of services/team_service.py): in every state of every
    run a team with a member has an OWNER. */
module Members {
  import opened Values
  import opened Transitions
  import opened Store
  import opened Queries
  import opened IssueSpec
  import opened AdminSpec
  import opened Schedules
  import opened Runs
  import opened Shapes
  import opened Sessions
  import opened IssueService

  // ---------- the services ----------

  /** `create_or_add_user`. The role is the server's choice. */
  method CreateOrAddUser(s: Session, team: Id, name: string, email: string, actor: Option<Id>)
    returns (reply: Reply, role: Role)
    requires s.Idle()
    modifies s
    ensures var t := AddUserSpec(old(s.committed), team, name, email, actor);
      s.Idle() && s.committed == Outcome(old(s.committed), t) && reply == ReplyTo(t)
    ensures reply.Done? ==> (team, reply.id) in s.committed.members && role == s.committed.members[(team, reply.id)]
  {
    hide Least;
    role := Member;
    var known := UsersWithEmail(s.working, email);
    if |known| > 1 {
      return Crash(TooManyRows), role;
    }
    var user := s.working.nextId;
    if known == {} {
      s.working := s.working.(nextId := user + 1, users := s.working.users[user := User(name, email)]);
    } else {
      user := Least(known);
    }
    if (team, user) in s.working.members {
      s.Commit();
      return Done(user), s.committed.members[(team, user)];
    }
    var memberCount := |MembersOf(s.working, team)|;
    role := if memberCount == 0 then Owner else Member;
    if team !in s.working.teams {
      s.Rollback();
      return Crash(BrokenReference), role;
    }
    s.working := s.working.(members := s.working.members[(team, user) := role]);
    if actor.Some? {
      s.working := Logged(s.working, Entry(team, MembershipEntity, user, Create, actor.value));
    }
    s.Commit();
    reply := Done(user);
  }

  /** `change_member_role`, with the guard against demoting the last owner. */
  method ChangeMemberRole(s: Session, team: Id, user: Id, role: Role, actor: Id) returns (reply: Reply)
    requires s.Idle()
    modifies s
    ensures var t := ChangeRoleSpec(old(s.committed), team, user, role, actor);
      s.Idle() && s.committed == Outcome(old(s.committed), t) && reply == ReplyTo(t)
  {
    if (team, user) !in s.working.members {
      return Refuse(NotFound);
    }
    if s.working.members[(team, user)] == Owner && role != Owner {
      var ownerCount := |OwnersOf(s.working, team)|;
      if ownerCount <= 1 {
        return Refuse(Invalid);
      }
    }
    s.working := s.working.(members := s.working.members[(team, user) := role]);
    s.working := Logged(s.working, Entry(team, MembershipEntity, user, Update, actor));
    s.Commit();
    reply := Done(user);
  }

  /** The loop of `seed_default_states`. */
  method SeedDefaultStates(s: Session, team: Id)
    modifies s`working
    ensures s.working == SeedStates(old(s.working), team, DEFAULT_STATES)
  {
    for i := 0 to |DEFAULT_STATES|
      invariant SeedStates(s.working, team, DEFAULT_STATES[i..]) == SeedStates(old(s.working), team, DEFAULT_STATES)
    {
      var id, seed := s.working.nextId, DEFAULT_STATES[i];
      s.working := s.working.(nextId := id + 1,
        states := s.working.states[id := WorkflowState(team, seed.0, seed.1, 0)]);
    }
  }

  /** `create_team`; the key is the upper-cased one. */
  method CreateTeam(s: Session, key: string, creator: Option<Id>) returns (reply: Reply)
    requires s.Idle()
    modifies s
    ensures var t := CreateTeamSpec(old(s.committed), key, creator);
      s.Idle() && s.committed == Outcome(old(s.committed), t) && reply == ReplyTo(t)
  {
    hide SeedStates;
    if exists t :: t in s.working.teams && s.working.teams[t].key == key {
      s.Rollback();
      return Refuse(Invalid);
    }
    var team := s.working.nextId;
    s.working := s.working.(nextId := team + 1, teams := s.working.teams[team := Team(key, true)]);
    SeedKeepsPeople(s.working, team, DEFAULT_STATES);
    SeedDefaultStates(s, team);
    if creator.Some? {
      if creator.value !in s.working.users {
        s.Rollback();
        return Crash(BrokenReference);
      }
      s.working := s.working.(members := s.working.members[(team, creator.value) := Owner]);
    }
    s.Commit();
    reply := Done(team);
  }

  // ---------- what a request changes ----------

  ghost predicate HasMember(db: Db, team: Id) {
    exists u :: (team, u) in db.members
  }

  /** Joining adds one membership, as OWNER in a team without members and as MEMBER in any other, and so makes no new
      owner in a team that has members. */
  lemma JoinAddsOneMember(db: Db, team: Id, user: Id, actor: Option<Id>)
    requires (team, user) !in db.members
    ensures var next := JoinTeam(db, team, user, actor);
      && next.members.Keys == db.members.Keys + {(team, user)}
      && (forall m :: m in db.members ==> next.members[m] == db.members[m])
      && next.members[(team, user)] == (if HasMember(db, team) then Member else Owner)
      && OwnersOf(next, team) == (if HasMember(db, team) then OwnersOf(db, team) else {(team, user)})
  {
    assert MembersOf(db, team) == {} <==> !HasMember(db, team) by {
      forall u ensures (team, u) in MembersOf(db, team) <==> (team, u) in db.members {
      }
      if m :| m in MembersOf(db, team) {
        assert (team, m.1) in db.members;
      }
    }
  }

  /** A user of the email joins the team: the one there is, or a new one of that name. Nobody else's membership changes,
      and one who was a member already keeps the role. */
  lemma AddedUserIsTheOneOfTheEmail(db: Db, team: Id, name: string, email: string, actor: Option<Id>)
    requires FreshIds(db) && AddUserSpec(db, team, name, email, actor).Committed?
    ensures var t := AddUserSpec(db, team, name, email, actor);
      && t.id in t.db.users && t.db.users[t.id].email == email && (team, t.id) in t.db.members
      && (t.id in db.users ==> t.db.users == db.users)
      && (t.id !in db.users ==> t.db.users == db.users[t.id := User(name, email)]
                                && forall u :: u in db.users ==> db.users[u].email != email)
      && t.db.members.Keys == db.members.Keys + {(team, t.id)}
      && (forall m :: m in db.members ==> t.db.members[m] == db.members[m])
  {
    var known := UsersWithEmail(db, email);
    forall u | u in db.users && db.users[u].email == email ensures u in known {
    }
    hide JoinTxn, FreshIds;
    if known == {} {
      JoinTxnAdds(db.(nextId := db.nextId + 1, users := db.users[db.nextId := User(name, email)]), team,
        db.nextId, actor);
      assert db.nextId !in db.users by { NewIdIsUnused(db); }
    } else {
      JoinTxnAdds(db, team, Least(known), actor);
      assert Least(known) in known;
    }
  }

  lemma NewIdIsUnused(db: Db)
    requires FreshIds(db)
    ensures db.nextId !in db.users
  {
  }

  lemma JoinTxnAdds(db: Db, team: Id, user: Id, actor: Option<Id>)
    requires JoinTxn(db, team, user, actor).Committed?
    ensures var t := JoinTxn(db, team, user, actor);
      && t.id == user && t.db.users == db.users && t.db.members.Keys == db.members.Keys + {(team, user)}
      && forall m :: m in db.members ==> t.db.members[m] == db.members[m]
  {
    if (team, user) in db.members {
    } else {
      JoinAddsOneMember(db, team, user, actor);
      assert JoinTeam(db, team, user, actor).users == db.users;
      hide JoinTeam, MembersOf, OwnersOf, HasMember;
    }
  }

  /** A role changes in one membership, to the one asked for. */
  lemma OneRoleChanges(db: Db, team: Id, user: Id, role: Role, actor: Id)
    requires ChangeRoleSpec(db, team, user, role, actor).Committed?
    ensures var next := ChangeRoleSpec(db, team, user, role, actor).db;
      && next.members.Keys == db.members.Keys && (team, user) in db.members && next.members[(team, user)] == role
      && forall m :: m in db.members && m != (team, user) ==> next.members[m] == db.members[m]
  {
  }

  /** Besides the old states there is one for each seed, from the id `first` on. */
  ghost predicate Seeded(before: map<Id, WorkflowState>, after: map<Id, WorkflowState>, team: Id, first: Id,
                         seeds: seq<(string, StateType)>)
  {
    && (forall s :: s in after <==> s in before || first <= s < first + |seeds|)
    && (forall s :: s in before ==> after[s] == before[s])
    && forall s :: first <= s < first + |seeds| ==>
         after[s] == WorkflowState(team, seeds[s - first].0, seeds[s - first].1, 0)
  }

  lemma {:induction false} SeedsBecomeStates(db: Db, team: Id, seeds: seq<(string, StateType)>)
    requires forall s :: s in db.states ==> s < db.nextId
    ensures Seeded(db.states, SeedStates(db, team, seeds).states, team, db.nextId, seeds)
    decreases |seeds|
  {
    if seeds != [] {
      SeedsBecomeStates(db.(nextId := db.nextId + 1,
        states := db.states[db.nextId := WorkflowState(team, seeds[0].0, seeds[0].1, 0)]), team, seeds[1..]);
    }
  }

  /** A new team has its creator, if there is one, as its only member. */
  lemma NewTeamIsItsCreators(db: Db, key: string, creator: Option<Id>)
    requires CreateTeamSpec(db, key, creator).Committed?
    ensures var t := CreateTeamSpec(db, key, creator);
      && t.id == db.nextId && t.db.teams == db.teams[t.id := Team(key, true)]
      && t.db.members == (if creator.Some? then db.members[(t.id, creator.value) := Owner] else db.members)
  {
    var withTeam := db.(nextId := db.nextId + 1, teams := db.teams[db.nextId := Team(key, true)]);
    SeedKeepsPeople(withTeam, db.nextId, DEFAULT_STATES);
    SeedKeepsTeams(withTeam, db.nextId, DEFAULT_STATES);
    hide SeedStates;
  }

  lemma NewTeamsStatesAreSeeds(db: Db, key: string, creator: Option<Id>)
    requires CreateTeamSpec(db, key, creator).Committed?
    ensures CreateTeamSpec(db, key, creator).db.states
      == SeedStates(db.(nextId := db.nextId + 1), db.nextId, DEFAULT_STATES).states
  {
    var withTeam := db.(nextId := db.nextId + 1, teams := db.teams[db.nextId := Team(key, true)]);
    SeedsIgnoreTeams(withTeam, db.(nextId := db.nextId + 1), db.nextId, DEFAULT_STATES);
    hide SeedStates;
  }

  lemma {:induction false} SeedsIgnoreTeams(db: Db, other: Db, team: Id, seeds: seq<(string, StateType)>)
    requires db.nextId == other.nextId && db.states == other.states
    ensures SeedStates(db, team, seeds).states == SeedStates(other, team, seeds).states
    decreases |seeds|
  {
    if seeds != [] {
      var state := WorkflowState(team, seeds[0].0, seeds[0].1, 0);
      SeedsIgnoreTeams(db.(nextId := db.nextId + 1, states := db.states[db.nextId := state]),
        other.(nextId := db.nextId + 1, states := db.states[db.nextId := state]), team, seeds[1..]);
    }
  }

  /** It has exactly one state in each category. */
  lemma NewTeamHasEveryCategory(db: Db, key: string, creator: Option<Id>, kind: StateType)
    requires FreshIds(db) && CreateTeamSpec(db, key, creator).Committed?
    ensures var next := CreateTeamSpec(db, key, creator).db;
      && (forall s :: s in db.states ==> s in next.states && next.states[s] == db.states[s])
      && OneNewState(db.states, next.states, db.nextId, kind)
  {
    NewTeamsStatesAreSeeds(db, key, creator);
    SeedsGiveEachCategory(db, DEFAULT_STATES, kind, Position(kind));
    hide SeedStates, CreateTeamSpec, Position, OneNewState, FreshIds;
  }

  lemma SeedsGiveEachCategory(db: Db, seeds: seq<(string, StateType)>, kind: StateType, k: nat)
    requires FreshIds(db)
    requires k < |seeds| && seeds[k].1 == kind && forall j :: 0 <= j < |seeds| && seeds[j].1 == kind ==> j == k
    ensures var next := SeedStates(db.(nextId := db.nextId + 1), db.nextId, seeds);
      && (forall s :: s in db.states ==> s in next.states && next.states[s] == db.states[s])
      && OneNewState(db.states, next.states, db.nextId, kind)
  {
    var start := db.(nextId := db.nextId + 1);
    SeedsBecomeStates(start, db.nextId, seeds);
    OneSeedOneState(db, SeedStates(start, db.nextId, seeds), db.nextId, seeds, kind, k);
    hide SeedStates, OneNewState, Seeded;
  }

  lemma OneSeedOneState(db: Db, next: Db, team: Id, seeds: seq<(string, StateType)>, kind: StateType, k: nat)
    requires k < |seeds| && seeds[k].1 == kind && forall j :: 0 <= j < |seeds| && seeds[j].1 == kind ==> j == k
    requires (forall s :: s in db.states ==> s <= team) && Seeded(db.states, next.states, team, team + 1, seeds)
    ensures forall s :: s in db.states ==> s in next.states && next.states[s] == db.states[s]
    ensures OneNewState(db.states, next.states, team, kind)
  {
    assert IsNewState(db.states, next.states, team, kind, team + 1 + k);
    forall s: Id | IsNewState(db.states, next.states, team, kind, s) ensures s == team + 1 + k {
      assert next.states[s].kind == seeds[s - (team + 1)].1;
    }
  }

  /** Where the category stands among the six. */
  function Position(kind: StateType): (k: nat)
    ensures k < |DEFAULT_STATES| && DEFAULT_STATES[k].1 == kind
    ensures forall j :: 0 <= j < |DEFAULT_STATES| && DEFAULT_STATES[j].1 == kind ==> j == k
  {
    match kind
    case Triage => 0
    case Backlog => 1
    case Unstarted => 2
    case Started => 3
    case Completed => 4
    case Canceled => 5
  }

  ghost predicate IsNewState(before: map<Id, WorkflowState>, after: map<Id, WorkflowState>, team: Id, kind: StateType,
                             s: Id)
  {
    s !in before && s in after && after[s].team == team && after[s].kind == kind
  }

  /** The team has exactly one new state of the category. */
  ghost predicate OneNewState(before: map<Id, WorkflowState>, after: map<Id, WorkflowState>, team: Id,
    kind: StateType) {
    exists s: Id :: IsNewState(before, after, team, kind, s)
                    && forall o: Id :: IsNewState(before, after, team, kind, o) ==> o == s
  }

  lemma {:induction false} SeedKeepsTeams(db: Db, team: Id, seeds: seq<(string, StateType)>)
    ensures SeedStates(db, team, seeds).teams == db.teams
    decreases |seeds|
  {
    if seeds != [] {
      SeedKeepsTeams(db.(nextId := db.nextId + 1,
        states := db.states[db.nextId := WorkflowState(team, seeds[0].0, seeds[0].1, 0)]), team, seeds[1..]);
    }
  }

  // ---------- what every state keeps ----------

  ghost predicate HasOwner(db: Db, team: Id) {
    MembersOf(db, team) != {} ==> OwnersOf(db, team) != {}
  }

  /** Every team with a member has an owner, memberships join existing rows, and an email names one user. */
  ghost predicate Governed(db: Db) {
    && (forall t :: HasOwner(db, t))
    && (forall m :: m in db.members ==> m.0 in db.teams && m.1 in db.users)
    && (forall u, v :: u in db.users && v in db.users && db.users[u].email == db.users[v].email ==> u == v)
  }

  ghost predicate SamePeople(db: Db, next: Db) {
    next.members == db.members && next.users == db.users && next.teams.Keys == db.teams.Keys
  }

  lemma {:induction false} SeedKeepsPeople(db: Db, team: Id, seeds: seq<(string, StateType)>)
    ensures SamePeople(db, SeedStates(db, team, seeds))
    decreases |seeds|
  {
    if seeds != [] {
      SeedKeepsPeople(db.(nextId := db.nextId + 1,
                          states := db.states[db.nextId := WorkflowState(team, seeds[0].0, seeds[0].1, 0)]), team,
                            seeds[1..]);
    }
  }

  lemma SamePeopleStayGoverned(db: Db, next: Db)
    requires Governed(db) && SamePeople(db, next)
    ensures Governed(next)
  {
    forall t ensures HasOwner(next, t) {
      assert HasOwner(db, t);
      assert MembersOf(next, t) == MembersOf(db, t) && OwnersOf(next, t) == OwnersOf(db, t);
    }
  }

  lemma OwnersAfter(db: Db, team: Id, user: Id, role: Role)
    ensures OwnersOf(db.(members := db.members[(team, user) := role]), team)
      == if role == Owner then OwnersOf(db, team) + {(team, user)} else OwnersOf(db, team) - {(team, user)}
  {
  }

  /** The demotion guard is exact: it refuses a change of role precisely when it would leave the team no owner. */
  lemma RefusedExactlyForTheLastOwner(db: Db, team: Id, user: Id, role: Role, actor: Id)
    requires Governed(db) && (team, user) in db.members
    ensures ChangeRoleSpec(db, team, user, role, actor).Refused?
      <==> OwnersOf(db.(members := db.members[(team, user) := role]), team) == {}
  {
    var next := db.(members := db.members[(team, user) := role]);
    var before, after := OwnersOf(db, team), OwnersOf(next, team);
    assert HasOwner(db, team) && (team, user) in MembersOf(db, team);
    OwnersAfter(db, team, user, role);
    hide Governed;
    if role != Owner && db.members[(team, user)] == Owner {
      assert |after| == |before| - 1;
    }
  }

  lemma RoleChangeStaysGoverned(db: Db, team: Id, user: Id, role: Role, actor: Id)
    requires Governed(db)
    ensures Governed(Outcome(db, ChangeRoleSpec(db, team, user, role, actor)))
  {
    var t := ChangeRoleSpec(db, team, user, role, actor);
    if t.Committed? {
      RefusedExactlyForTheLastOwner(db, team, user, role, actor);
      var next := db.(members := db.members[(team, user) := role]);
      forall other ensures HasOwner(next, other) {
        assert HasOwner(db, other);
        if other != team {
          assert MembersOf(next, other) == MembersOf(db, other) && OwnersOf(next, other) == OwnersOf(db, other);
        }
      }
      assert Governed(next);
      SamePeopleStayGoverned(next, t.db);
    }
  }

  /** The first member of a team becomes its owner. */
  lemma JoinStaysGoverned(db: Db, team: Id, user: Id, actor: Option<Id>)
    requires Governed(db) && team in db.teams && user in db.users
    ensures Governed(JoinTeam(db, team, user, actor))
  {
    if (team, user) !in db.members {
      var role := if MembersOf(db, team) == {} then Owner else Member;
      MembershipStaysGoverned(db, team, user, role);
      SamePeopleStayGoverned(db.(members := db.members[(team, user) := role]), JoinTeam(db, team, user, actor));
    }
  }

  lemma MembershipStaysGoverned(db: Db, team: Id, user: Id, role: Role)
    requires Governed(db) && team in db.teams && user in db.users && (team, user) !in db.members
    requires role == Owner || MembersOf(db, team) != {}
    ensures Governed(db.(members := db.members[(team, user) := role]))
  {
    var next := db.(members := db.members[(team, user) := role]);
    forall other ensures HasOwner(next, other) {
      assert HasOwner(db, other);
      assert OwnersOf(db, other) <= OwnersOf(next, other);
      if other == team {
        assert role == Owner ==> (team, user) in OwnersOf(next, team);
      } else {
        assert MembersOf(next, other) == MembersOf(db, other);
      }
    }
  }

  lemma NewUserStaysGoverned(db: Db, user: User)
    requires Governed(db) && FreshIds(db) && UsersWithEmail(db, user.email) == {}
    ensures Governed(db.(nextId := db.nextId + 1, users := db.users[db.nextId := user]))
  {
    var next := db.(nextId := db.nextId + 1, users := db.users[db.nextId := user]);
    forall u | u in db.users ensures db.users[u].email != user.email {
      assert u !in UsersWithEmail(db, user.email);
    }
    forall t ensures HasOwner(next, t) {
      assert HasOwner(db, t);
      assert MembersOf(next, t) == MembersOf(db, t) && OwnersOf(next, t) == OwnersOf(db, t);
    }
  }

  lemma AddUserStaysGoverned(db: Db, team: Id, name: string, email: string, actor: Option<Id>)
    requires Governed(db) && FreshIds(db)
    ensures Governed(Outcome(db, AddUserSpec(db, team, name, email, actor)))
  {
    hide Governed, FreshIds, JoinTeam;
    var known := UsersWithEmail(db, email);
    if AddUserSpec(db, team, name, email, actor).Committed? {
      if known == {} {
        var withUser := db.(nextId := db.nextId + 1, users := db.users[db.nextId := User(name, email)]);
        NewUserStaysGoverned(db, User(name, email));
        JoinTxnStaysGoverned(withUser, team, db.nextId, actor);
      } else {
        JoinTxnStaysGoverned(db, team, Least(known), actor);
      }
    }
  }

  lemma JoinTxnStaysGoverned(db: Db, team: Id, user: Id, actor: Option<Id>)
    requires Governed(db) && user in db.users && JoinTxn(db, team, user, actor).Committed?
    ensures Governed(JoinTxn(db, team, user, actor).db)
  {
    hide JoinTeam;
    assert (team, user) in db.members ==> team in db.teams;
    JoinStaysGoverned(db, team, user, actor);
  }

  lemma NewTeamStaysGoverned(db: Db, team: Team)
    requires Governed(db) && FreshIds(db)
    ensures Governed(db.(nextId := db.nextId + 1, teams := db.teams[db.nextId := team]))
    ensures MembersOf(db, db.nextId) == {}
  {
    var next := db.(nextId := db.nextId + 1, teams := db.teams[db.nextId := team]);
    forall t ensures HasOwner(next, t) {
      assert HasOwner(db, t);
      assert MembersOf(next, t) == MembersOf(db, t) && OwnersOf(next, t) == OwnersOf(db, t);
    }
  }

  lemma CreateTeamStaysGoverned(db: Db, key: string, creator: Option<Id>)
    requires Governed(db) && FreshIds(db)
    ensures Governed(Outcome(db, CreateTeamSpec(db, key, creator)))
  {
    hide SeedStates, Governed;
    if CreateTeamSpec(db, key, creator).Committed? {
      var id := db.nextId;
      var withTeam := db.(nextId := id + 1, teams := db.teams[id := Team(key, true)]);
      var seeded := SeedStates(withTeam, id, DEFAULT_STATES);
      NewTeamStaysGoverned(db, Team(key, true));
      SeedKeepsPeople(withTeam, id, DEFAULT_STATES);
      SamePeopleStayGoverned(withTeam, seeded);
      if creator.Some? {
        assert (id, creator.value) !in MembersOf(db, id);
        MembershipStaysGoverned(seeded, id, creator.value, Owner);
      }
    }
  }

  // ---------- every step, every run ----------

  lemma OtherRequestsKeepPeople(lib: Lib, db: Db, op: AdminOp)
    requires !op.CreateTeam? && !op.AddUser? && !op.ChangeRole?
    ensures SamePeople(db, Outcome(db, AdminTxn(lib, db, op)))
  {
    hide NextDue, ValidSchedule, ValidActions, RuleAt, PatchedRule;
    if op.CreateRule? || op.UpdateRule? || op.DeleteRule? {
      if AdminTxn(lib, db, op).Committed? {
        if op.actor.Some? {
        }
      }
    } else if op.CreateRecurrence? || op.UpdateRecurrence? || op.DeleteRecurrence? {
      if AdminTxn(lib, db, op).Committed? {
      }
    } else {
      if AdminTxn(lib, db, op).Committed? {
      }
    }
  }

  lemma StepStaysGoverned(lib: Lib, db: Db, op: Op)
    requires Governed(db) && FreshIds(db)
    ensures Governed(Step(lib, db, op))
  {
    hide Governed, FreshIds, CreateTeamSpec, AddUserSpec, ChangeRoleSpec;
    if !op.Admin? {
      hide Step;
      IssueStepsKeepSettings(lib, db, op);
      SamePeopleStayGoverned(db, Step(lib, db, op));
    } else {
      RequestStaysGoverned(lib, db, op.request);
    }
  }

  lemma RequestStaysGoverned(lib: Lib, db: Db, op: AdminOp)
    requires Governed(db) && FreshIds(db)
    ensures Governed(Outcome(db, AdminTxn(lib, db, op)))
  {
    hide Governed, FreshIds, CreateTeamSpec, AddUserSpec, ChangeRoleSpec;
    if op.CreateTeam? {
      CreateTeamStaysGoverned(db, op.key, op.creator);
    } else if op.AddUser? {
      AddUserStaysGoverned(db, op.team, op.name, op.email, op.actor);
    } else if op.ChangeRole? {
      RoleChangeStaysGoverned(db, op.team, op.user, op.role, op.acting);
    } else {
      hide AdminTxn;
      OtherRequestsKeepPeople(lib, db, op);
      SamePeopleStayGoverned(db, Outcome(db, AdminTxn(lib, db, op)));
    }
  }

  /** From a governed state, and so from the empty tables, every run stays governed: a team with a member always
      has an owner. */
  lemma {:induction false} TeamsKeepAnOwner(lib: Lib, db: Db, ops: seq<Op>)
    requires Governed(db) && FreshIds(db)
    ensures Governed(Run(lib, db, ops))
    decreases |ops|
  {
    if ops != [] {
      hide Step, Governed;
      StepStaysGoverned(lib, db, ops[0]);
      StepIds(lib, db, ops[0]);
      TeamsKeepAnOwner(lib, Step(lib, db, ops[0]), ops[1..]);
    }
  }

  lemma EmptyTablesAreGoverned()
    ensures Governed(EMPTY) && FreshIds(EMPTY)
  {
    forall t ensures HasOwner(EMPTY, t) {
      assert MembersOf(EMPTY, t) == {};
    }
  }
}
