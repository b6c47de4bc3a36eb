/** The competition validator, and what it promises the blue teams of a competition it accepts. */
module Competition {
  import opened Sums

  /** A service as configured; hosts and ports are each team's own. */
  datatype Service = Service(name: string, checkName: string, points: int, environments: nat, host: string, port: int)

  datatype Team = Team(name: string, color: string, users: seq<string>, services: seq<Service>)

  predicate ValidColor(t: Team) { t.color == "Blue" || t.color == "White" || t.color == "Red" }

  predicate IsBlue(t: Team) { t.color == "Blue" }

  predicate Alike(a: Service, b: Service) {
    a.name == b.name && a.checkName == b.checkName && a.points == b.points && a.environments == b.environments
  }

  ghost predicate UniqueNames(services: seq<Service>) {
    forall i, j | 0 <= i < j < |services| :: services[i].name != services[j].name
  }

  ghost predicate HasName(services: seq<Service>, name: string) {
    exists s :: s in services && s.name == name
  }

  /** The last service of that name: the search loop never stops early. */
  function LastNamed(services: seq<Service>, name: string): (r: Option<Service>)
    ensures r.Some? ==> r.value in services && r.value.name == name
    ensures r.None? ==> !HasName(services, name)
  {
    if services == [] then None
    else if services[|services| - 1].name == name then Some(services[|services| - 1])
    else LastNamed(services[..|services| - 1], name)
  }

  /** What the three loops of `verify_team_data` check for a blue team. */
  ghost predicate Conforms(services: seq<Service>, required: seq<Service>) {
    && (forall r | r in required :: LastNamed(services, r.name).Some? && Alike(LastNamed(services, r.name).value, r))
    && (forall s | s in services :: HasName(required, s.name))
    && UniqueNames(services)
  }

  function RequiredServices(teams: seq<Team>): Option<seq<Service>> {
    if teams == [] then None
    else if IsBlue(teams[0]) then Some(teams[0].services)
    else RequiredServices(teams[1..])
  }

  function AllUsers(teams: seq<Team>): seq<string> {
    if teams == [] then [] else teams[0].users + AllUsers(teams[1..])
  }

  ghost predicate DistinctNames(names: seq<string>) {
    forall i, j | 0 <= i < j < |names| :: names[i] != names[j]
  }

  ghost predicate TeamsConform(teams: seq<Team>, required: Option<seq<Service>>) {
    forall t | t in teams :: ValidColor(t) && (IsBlue(t) ==> required.Some? && Conforms(t.services, required.value))
  }

  /** What the loops accept. */
  ghost predicate Accepted(teams: seq<Team>) {
    TeamsConform(teams, RequiredServices(teams)) && DistinctNames(AllUsers(teams))
  }

  class Validator {
    var requiredServices: Option<seq<Service>>

    constructor ()
      ensures requiredServices == None
    {
      requiredServices := None;
    }

    static method FindLast(services: seq<Service>, name: string) returns (found: Option<Service>)
      ensures found == LastNamed(services, name)
    {
      found := None;
      var i := 0;
      while i < |services|
        invariant 0 <= i <= |services|
        invariant found == LastNamed(services[..i], name)
      {
        assert services[..i + 1][..i] == services[..i];
        if services[i].name == name {
          found := Some(services[i]);
        }
        i := i + 1;
      }
      assert services[..i] == services;
    }

    static method CheckNamesUnique(services: seq<Service>) returns (ok: bool)
      ensures ok <==> UniqueNames(services)
    {
      var names: seq<string> := [];
      var i := 0;
      while i < |services|
        invariant 0 <= i <= |services| && |names| == i
        invariant forall k | 0 <= k < i :: names[k] == services[k].name
        invariant UniqueNames(services[..i])
      {
        if services[i].name in names {
          var k :| 0 <= k < i && names[k] == services[i].name;
          assert services[k].name == services[i].name;
          return false;
        }
        assert forall k | 0 <= k < i :: names[k] in names;
        names := names + [services[i].name];
        i := i + 1;
      }
      assert services[..i] == services;
      return true;
    }

    /** The service part of `verify_team_data`, for a blue team. */
    method VerifyServices(services: seq<Service>) returns (ok: bool)
      modifies this
      ensures requiredServices == if old(requiredServices).None? then Some(services) else old(requiredServices)
      ensures ok <==> Conforms(services, requiredServices.value)
    {
      if requiredServices.None? {
        requiredServices := Some(services);
      }
      var required := requiredServices.value;
      var i := 0;
      while i < |required|
        invariant 0 <= i <= |required| && requiredServices == Some(required)
        invariant forall r | r in required[..i] ::
                    LastNamed(services, r.name).Some? && Alike(LastNamed(services, r.name).value, r)
      {
        var found := FindLast(services, required[i].name);
        if found.None? || !Alike(found.value, required[i]) {
          assert required[i] in required;
          return false;
        }
        i := i + 1;
      }
      assert required[..i] == required;
      i := 0;
      while i < |services|
        invariant 0 <= i <= |services| && requiredServices == Some(required)
        invariant forall s | s in services[..i] :: HasName(required, s.name)
      {
        var found := FindLast(required, services[i].name);
        if found.None? {
          assert services[i] in services;
          return false;
        }
        i := i + 1;
      }
      assert services[..i] == services;
      ok := CheckNamesUnique(services);
    }

    method VerifyTeam(t: Team) returns (ok: bool)
      modifies this
      ensures requiredServices ==
                if ValidColor(t) && IsBlue(t) && old(requiredServices).None? then Some(t.services)
                else old(requiredServices)
      ensures ok <==> ValidColor(t) && (IsBlue(t) ==> Conforms(t.services, requiredServices.value))
    {
      if !ValidColor(t) { return false; }
      ok := true;
      if IsBlue(t) {
        ok := VerifyServices(t.services);
      }
    }

    static method AddUsers(seen: seq<string>, users: seq<string>) returns (ok: bool, seen': seq<string>)
      requires DistinctNames(seen)
      ensures ok <==> DistinctNames(seen + users)
      ensures ok ==> seen' == seen + users
    {
      seen' := seen;
      var j := 0;
      while j < |users|
        invariant 0 <= j <= |users|
        invariant seen' == seen + users[..j] && DistinctNames(seen')
      {
        if users[j] in seen' {
          RepeatedUser(seen, users, j);
          return false, seen';
        }
        assert users[..j + 1] == users[..j] + [users[j]];
        seen' := seen' + [users[j]];
        j := j + 1;
      }
      assert users[..j] == users;
      return true, seen';
    }

    static method CheckUsers(teams: seq<Team>) returns (ok: bool)
      ensures ok <==> DistinctNames(AllUsers(teams))
    {
      var seen: seq<string> := [];
      var i := 0;
      while i < |teams|
        invariant 0 <= i <= |teams|
        invariant seen == AllUsers(teams[..i]) && DistinctNames(seen)
      {
        AllUsersSnoc(teams[..i], teams[i]);
        assert teams[..i + 1] == teams[..i] + [teams[i]];
        AllUsersSplit(teams, i + 1);
        ok, seen := AddUsers(seen, teams[i].users);
        if !ok {
          RepeatInPrefix(AllUsers(teams[..i + 1]), AllUsers(teams));
          return false;
        }
        i := i + 1;
      }
      assert teams[..i] == teams;
      return true;
    }

    /** `verify_data` on a fresh competition: accepted exactly when no assertion fires. */
    method VerifyData(teams: seq<Team>) returns (ok: bool)
      requires requiredServices.None?
      modifies this
      ensures ok <==> Accepted(teams)
    {
      var i := 0;
      while i < |teams|
        invariant 0 <= i <= |teams|
        invariant requiredServices == RequiredServices(teams[..i])
        invariant TeamsConform(teams[..i], RequiredServices(teams[..i]))
      {
        RequiredSnoc(teams[..i], teams[i]);
        assert teams[..i + 1] == teams[..i] + [teams[i]];
        ok := VerifyTeam(teams[i]);
        RequiredPrefix(teams, i + 1);
        if !ok {
          assert teams[i] in teams;
          return false;
        }
        i := i + 1;
      }
      assert teams[..i] == teams;
      ok := CheckUsers(teams);
    }
  }

  lemma {:induction false} RequiredSnoc(teams: seq<Team>, t: Team)
    ensures RequiredServices(teams + [t]) ==
            if RequiredServices(teams).Some? then RequiredServices(teams)
            else if IsBlue(t) then Some(t.services) else None
  {
    if teams != [] {
      assert (teams + [t])[0] == teams[0] && (teams + [t])[1..] == teams[1..] + [t];
      RequiredSnoc(teams[1..], t);
    }
  }

  lemma {:induction false} RequiredPrefix(teams: seq<Team>, k: nat)
    requires k <= |teams|
    ensures RequiredServices(teams[..k]).Some? ==> RequiredServices(teams) == RequiredServices(teams[..k])
    decreases |teams| - k
  {
    if k < |teams| {
      assert teams[..k + 1] == teams[..k] + [teams[k]];
      RequiredSnoc(teams[..k], teams[k]);
      RequiredPrefix(teams, k + 1);
    } else {
      assert teams[..k] == teams;
    }
  }

  lemma {:induction false} AllUsersSnoc(teams: seq<Team>, t: Team)
    ensures AllUsers(teams + [t]) == AllUsers(teams) + t.users
  {
    if teams == [] {
      assert AllUsers([t]) == t.users + AllUsers([t][1..]);
    } else {
      assert (teams + [t])[0] == teams[0] && (teams + [t])[1..] == teams[1..] + [t];
      AllUsersSnoc(teams[1..], t);
    }
  }

  lemma {:induction false} AllUsersSplit(teams: seq<Team>, k: nat)
    requires k <= |teams|
    ensures AllUsers(teams[..k]) <= AllUsers(teams)
    decreases |teams| - k
  {
    if k < |teams| {
      AllUsersSplit(teams, k + 1);
      assert teams[..k + 1] == teams[..k] + [teams[k]];
      AllUsersSnoc(teams[..k], teams[k]);
    } else {
      assert teams[..k] == teams;
    }
  }

  lemma RepeatedUser(seen: seq<string>, users: seq<string>, j: nat)
    requires j < |users| && users[j] in seen + users[..j]
    ensures !DistinctNames(seen + users)
  {
    var head, all := seen + users[..j], seen + users;
    var k :| 0 <= k < |head| && head[k] == users[j];
    assert all[k] == head[k] && all[|seen| + j] == users[j];
  }

  lemma RepeatInPrefix(some: seq<string>, all: seq<string>)
    requires some <= all && !DistinctNames(some)
    ensures !DistinctNames(all)
  {
    var i, j :| 0 <= i < j < |some| && some[i] == some[j];
    assert all[i] == some[i] && all[j] == some[j];
  }

  // ---- Fairness ----

  /** Every service of the one team has a counterpart, equal in all that scoring uses, in the other. */
  ghost predicate Matched(a: seq<Service>, b: seq<Service>) {
    forall s | s in a :: HasAlike(b, s)
  }

  ghost predicate HasAlike(services: seq<Service>, s: Service) {
    exists u :: u in services && Alike(s, u)
  }

  /** The service has a counterpart of its name, check, points and number of environments. */
  ghost predicate HasCounterpart(services: seq<Service>, s: Service) {
    exists u :: u in services && (u.name, u.checkName, u.points, u.environments)
                              == (s.name, s.checkName, s.points, s.environments)
  }

  /** What the validator is there for, in terms of the teams alone. */
  ghost predicate Fair(teams: seq<Team>) {
    && (forall t | t in teams :: t.color in {"Blue", "White", "Red"})
    && (forall t | t in teams && t.color == "Blue" ::
          forall i, j | 0 <= i < j < |t.services| :: t.services[i].name != t.services[j].name)
    && (forall t, u, s | t in teams && u in teams && t.color == u.color == "Blue" && s in t.services ::
          HasCounterpart(u.services, s))
    && DistinctNames(AllUsers(teams))
  }

  lemma CounterpartIsAlike(services: seq<Service>, s: Service)
    ensures HasCounterpart(services, s) <==> HasAlike(services, s)
  {
    if u :| u in services && Alike(s, u) {
      assert u in services && (u.name, u.checkName, u.points, u.environments)
                              == (s.name, s.checkName, s.points, s.environments);
    }
    if u :| u in services && (u.name, u.checkName, u.points, u.environments)
                             == (s.name, s.checkName, s.points, s.environments) {
      assert Alike(s, u);
    }
  }

  /** In the validator's own terms. */
  ghost predicate PairwiseAlike(teams: seq<Team>) {
    && (forall t | t in teams :: ValidColor(t))
    && (forall t | t in teams && IsBlue(t) :: UniqueNames(t.services))
    && (forall t, u | t in teams && u in teams && IsBlue(t) && IsBlue(u) :: Matched(t.services, u.services))
    && DistinctNames(AllUsers(teams))
  }

  lemma FairIsPairwiseAlike(teams: seq<Team>)
    ensures Fair(teams) <==> PairwiseAlike(teams)
  {
    forall u, s ensures HasCounterpart(u, s) <==> HasAlike(u, s) {
      CounterpartIsAlike(u, s);
    }
    if PairwiseAlike(teams) {
      forall t, u, s | t in teams && u in teams && t.color == u.color == "Blue" && s in t.services
        ensures HasCounterpart(u.services, s)
      {
        assert Matched(t.services, u.services);
      }
    }
  }

  lemma UniqueByName(services: seq<Service>, a: Service, b: Service)
    requires UniqueNames(services) && a in services && b in services && a.name == b.name
    ensures a == b
  {
    var i :| 0 <= i < |services| && services[i] == a;
    var j :| 0 <= j < |services| && services[j] == b;
  }

  lemma ConformingMatches(services: seq<Service>, required: seq<Service>)
    requires Conforms(services, required)
    ensures Matched(required, services)
    ensures Matched(services, required)
  {
    forall r | r in required ensures HasAlike(services, r) {
      var u := LastNamed(services, r.name).value;
      assert u in services && Alike(r, u);
    }
    forall s | s in services ensures HasAlike(required, s) {
      var r :| r in required && r.name == s.name;
      UniqueByName(services, s, LastNamed(services, r.name).value);
      assert r in required && Alike(s, r);
    }
  }

  lemma MatchedTransitive(a: seq<Service>, b: seq<Service>, c: seq<Service>)
    requires Matched(a, b) && Matched(b, c)
    ensures Matched(a, c)
  {
    forall s | s in a ensures HasAlike(c, s) {
      var m :| m in b && Alike(s, m);
      var u :| u in c && Alike(m, u);
      assert u in c && Alike(s, u);
    }
  }

  lemma {:induction false} RequiredIsSomeBlueTeams(teams: seq<Team>)
    ensures RequiredServices(teams).Some? ==>
              exists t :: t in teams && IsBlue(t) && t.services == RequiredServices(teams).value
    ensures RequiredServices(teams).None? ==> forall t | t in teams :: !IsBlue(t)
  {
    if teams != [] {
      RequiredIsSomeBlueTeams(teams[1..]);
      assert teams == [teams[0]] + teams[1..];
      if !IsBlue(teams[0]) && RequiredServices(teams).Some? {
        var t :| t in teams[1..] && IsBlue(t) && t.services == RequiredServices(teams[1..]).value;
        assert t in teams;
      } else if IsBlue(teams[0]) {
        assert teams[0] in teams;
      }
    }
  }

  lemma MatchingConforms(services: seq<Service>, required: seq<Service>)
    requires UniqueNames(services) && Matched(required, services) && Matched(services, required)
    ensures Conforms(services, required)
  {
    forall r | r in required
      ensures LastNamed(services, r.name).Some? && Alike(LastNamed(services, r.name).value, r)
    {
      assert HasAlike(services, r);
      var u :| u in services && Alike(r, u);
      assert HasName(services, u.name);
      UniqueByName(services, u, LastNamed(services, r.name).value);
    }
    forall s | s in services ensures HasName(required, s.name) {
      assert HasAlike(required, s);
      var r :| r in required && Alike(s, r);
      assert r in required && r.name == s.name;
    }
  }

  /** The validator accepts exactly the competitions that treat every pair of blue teams alike. */
  lemma AcceptedIsFair(teams: seq<Team>)
    ensures Accepted(teams) <==> Fair(teams)
  {
    FairIsPairwiseAlike(teams);
    AcceptedIsPairwiseAlike(teams);
  }

  lemma AcceptedIsPairwiseAlike(teams: seq<Team>)
    ensures Accepted(teams) <==> PairwiseAlike(teams)
  {
    RequiredIsSomeBlueTeams(teams);
    var required := RequiredServices(teams);
    if Accepted(teams) {
      forall t, u | t in teams && u in teams && IsBlue(t) && IsBlue(u)
        ensures Matched(t.services, u.services)
      {
        ConformingMatches(t.services, required.value);
        ConformingMatches(u.services, required.value);
        MatchedTransitive(t.services, required.value, u.services);
      }
    }
    if PairwiseAlike(teams) && required.Some? {
      var first :| first in teams && IsBlue(first) && first.services == required.value;
      forall t | t in teams && IsBlue(t) ensures Conforms(t.services, required.value) {
        assert Matched(first.services, t.services) && Matched(t.services, first.services);
        MatchingConforms(t.services, required.value);
      }
    }
  }

  /** A round probes one environment of every service that has any. */
  function MaxPointsOf(): Service -> int { (s: Service) => if s.environments > 0 then s.points else 0 }

  function MaxPointsPerRound(t: Team): int { Sum(t.services, MaxPointsOf()) }

  lemma {:induction false} MatchedSums(a: seq<Service>, b: seq<Service>)
    requires UniqueNames(a) && UniqueNames(b) && Matched(a, b) && Matched(b, a)
    ensures |a| == |b| && Sum(a, MaxPointsOf()) == Sum(b, MaxPointsOf())
    decreases |a|
  {
    assert a != [] ==> a[0] in a && HasAlike(b, a[0]);
    assert b != [] ==> b[0] in b && HasAlike(a, b[0]);
    if a != [] {
      var u :| u in b && Alike(a[0], u);
      var i :| 0 <= i < |b| && b[i] == u;
      RemoveMatched(a, b, i);
      MatchedSums(a[1..], Without(b, i));
      SumWithout(b, i, MaxPointsOf());
    }
  }

  lemma WithoutMembers(s: seq<Service>, i: nat)
    requires i < |s| && UniqueNames(s)
    ensures UniqueNames(Without(s, i))
    ensures forall x :: x in Without(s, i) <==> x in s && x.name != s[i].name
  {
    WithoutKeepsNames(s, i);
    WithoutAddsNothing(s, i);
    var rest := Without(s, i);
    forall x | x in s && x.name != s[i].name ensures x in rest {
      var k :| 0 <= k < |s| && s[k] == x;
      assert rest[if k < i then k else k - 1] == x;
    }
  }

  lemma WithoutAddsNothing(s: seq<Service>, i: nat)
    requires i < |s| && UniqueNames(s)
    ensures forall x | x in Without(s, i) :: x in s && x.name != s[i].name
  {
    var rest := Without(s, i);
    forall x | x in rest ensures x in s && x.name != s[i].name {
      var k :| 0 <= k < |rest| && rest[k] == x;
      assert s[if k < i then k else k + 1] == x;
    }
  }

  lemma WithoutKeepsNames(s: seq<Service>, i: nat)
    requires i < |s| && UniqueNames(s)
    ensures UniqueNames(Without(s, i))
  {
  }

  lemma RemoveMatched(a: seq<Service>, b: seq<Service>, i: nat)
    requires UniqueNames(a) && UniqueNames(b) && Matched(a, b) && Matched(b, a)
    requires a != [] && i < |b| && Alike(a[0], b[i])
    ensures UniqueNames(a[1..]) && UniqueNames(Without(b, i))
    ensures Matched(a[1..], Without(b, i)) && Matched(Without(b, i), a[1..])
  {
    assert a[1..] == Without(a, 0);
    WithoutMembers(a, 0);
    WithoutMembers(b, i);
    forall s | s in a[1..] ensures HasAlike(Without(b, i), s) {
      assert HasAlike(b, s);
      var u :| u in b && Alike(s, u);
      assert u in Without(b, i);
    }
    forall u | u in Without(b, i) ensures HasAlike(a[1..], u) {
      assert HasAlike(a, u);
      var s :| s in a && Alike(u, s);
      assert s in a[1..];
    }
  }

  /** Accepted blue teams have the same number of services and can earn the same points in every round. */
  lemma AcceptedTeamsHaveEqualMaximum(teams: seq<Team>, t: Team, u: Team)
    requires Accepted(teams) && t in teams && u in teams && IsBlue(t) && IsBlue(u)
    ensures |t.services| == |u.services| && MaxPointsPerRound(t) == MaxPointsPerRound(u)
  {
    AcceptedIsPairwiseAlike(teams);
    MatchedSums(t.services, u.services);
  }
}
