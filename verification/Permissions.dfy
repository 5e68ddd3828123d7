/** Role permissions: a level per resource in each role, merged over a user's active
    roles and then expanded to actions. */
module Permissions {

  type Resource = string
  type Level = string
  type Action = string

  /** resource, action: the two halves of a "resource:action" claim. */
  type Grant = (Resource, Action)

  type Levels = map<Resource, Level>

  datatype Role = Role(active: bool, levels: Levels)

  // ----- Levels -----

  /** What each level may do; an unknown level may do nothing. */
  function ActionsForLevel(level: Level): seq<Action> {
    if level == "viewer" then ["read"]
    else if level == "editor" then ["create", "read", "update", "delete"]
    else if level == "admin" then ["create", "read", "update", "delete", "export", "import", "restore", "approve"]
    else []
  }

  /** The rank the merge compares; an unknown level has none. */
  function Rank(level: Level): nat {
    if level == "viewer" then 1 else if level == "editor" then 2 else if level == "admin" then 3 else 0
  }

  predicate Allows(level: Level, action: Action) {
    action in ActionsForLevel(level)
  }

  /** The actions of each level, one by one; no other level has any. */
  lemma LevelActions(level: Level, action: Action)
    ensures Allows(level, action) <==>
      || (level == "viewer" && action == "read")
      || (level == "editor" && action in {"create", "read", "update", "delete"})
      || (level == "admin" && action in {"create", "read", "update", "delete", "export", "import", "restore", "approve"})
  {}

  /** A higher rank allows everything a lower one does. */
  lemma RankDecides(low: Level, high: Level, action: Action)
    requires Rank(low) <= Rank(high) && Allows(low, action)
    ensures Allows(high, action)
  {}

  lemma ActionsUnrepeated(level: Level)
    ensures forall i, j :: 0 <= i < j < |ActionsForLevel(level)| ==> ActionsForLevel(level)[i] != ActionsForLevel(level)[j]
  {}

  // ----- Grants -----

  /** What the level map grants by itself. */
  predicate Grants(p: Levels, g: Grant) {
    g.0 in p && Allows(p[g.0], g.1)
  }

  /** What some active role grants alone. */
  ghost predicate SomeRoleGrants(roles: seq<Role>, g: Grant) {
    exists i :: 0 <= i < |roles| && roles[i].active && Grants(roles[i].levels, g)
  }

  // ----- Merging -----

  /** The level one resource ends at. */
  function Higher(p: Levels, other: Levels, r: Resource): Level
    requires r in p || r in other
  {
    if r !in other then p[r]
    else if r !in p || Rank(other[r]) > Rank(p[r]) then other[r]
    else p[r]
  }

  function Merged(p: Levels, other: Levels): Levels {
    map r | r in p.Keys + other.Keys :: Higher(p, other, r)
  }

  /** The merge grants exactly what either side grants: it is a join. */
  lemma MergeIsJoin(p: Levels, other: Levels, g: Grant)
    ensures Grants(Merged(p, other), g) <==> Grants(p, g) || Grants(other, g)
  {
    var r := g.0;
    if r in p && r in other {
      if Allows(p[r], g.1) && Rank(other[r]) > Rank(p[r]) {
        RankDecides(p[r], other[r], g.1);
      }
      if Allows(other[r], g.1) && Rank(other[r]) <= Rank(p[r]) {
        RankDecides(other[r], p[r], g.1);
      }
    }
  }

  /** The fold over the active roles. */
  function MergedRoles(roles: seq<Role>): Levels {
    if roles == [] then map[]
    else
      var last := |roles| - 1;
      if roles[last].active then Merged(MergedRoles(roles[..last]), roles[last].levels) else MergedRoles(roles[..last])
  }

  lemma GrantsOfMore(roles: seq<Role>, g: Grant)
    requires roles != []
    ensures var last := |roles| - 1;
      SomeRoleGrants(roles, g) <==> SomeRoleGrants(roles[..last], g) || (roles[last].active && Grants(roles[last].levels, g))
  {
    var front := roles[..|roles| - 1];
    assert forall i :: 0 <= i < |front| ==> front[i] == roles[i];
    if SomeRoleGrants(roles, g) {
      var i :| 0 <= i < |roles| && roles[i].active && Grants(roles[i].levels, g);
      assert i < |front| ==> front[i].active && Grants(front[i].levels, g);
    }
  }

  /** Folding the merge over the active roles grants exactly the union of what each
      grants alone, known levels or not, and so in any order of the roles. */
  lemma {:induction false} MergedGrantUnion(roles: seq<Role>, g: Grant)
    ensures Grants(MergedRoles(roles), g) <==> SomeRoleGrants(roles, g)
  {
    if roles != [] {
      var last := |roles| - 1;
      MergedGrantUnion(roles[..last], g);
      MergeIsJoin(MergedRoles(roles[..last]), roles[last].levels, g);
      GrantsOfMore(roles, g);
    }
  }

  lemma OrderDoesNotMatter(a: seq<Role>, b: seq<Role>, g: Grant)
    requires multiset(a) == multiset(b)
    ensures Grants(MergedRoles(a), g) <==> Grants(MergedRoles(b), g)
  {
    MergedGrantUnion(a, g);
    MergedGrantUnion(b, g);
    if SomeRoleGrants(a, g) {
      SameRolesSameGrants(a, b, g);
    }
    if SomeRoleGrants(b, g) {
      SameRolesSameGrants(b, a, g);
    }
  }

  lemma SameRolesSameGrants(a: seq<Role>, b: seq<Role>, g: Grant)
    requires multiset(a) == multiset(b) && SomeRoleGrants(a, g)
    ensures SomeRoleGrants(b, g)
  {
    var i :| 0 <= i < |a| && a[i].active && Grants(a[i].levels, g);
    assert a[i] in multiset(a);
    assert a[i] in multiset(b);
    var j :| 0 <= j < |b| && b[j] == a[i];
  }

  // ----- Claims -----

  function Claim(g: Grant): string {
    g.0 + ":" + g.1
  }

  lemma ActionsHaveNoColon(level: Level, action: Action)
    requires Allows(level, action)
    ensures ':' !in action
  {}

  /** The claim names its resource and its action: no action has a colon in it. */
  lemma ClaimInjective(a: Grant, b: Grant)
    requires ':' !in a.1 && ':' !in b.1 && Claim(a) == Claim(b)
    ensures a == b
  {
    SplitAtLast(a, b);
    SplitAtLast(b, a);
    var s, n := Claim(a), |a.0|;
    assert s[..n] == a.0 && s[n + 1..] == a.1;
    assert s[..n] == b.0 && s[n + 1..] == b.1;
  }

  lemma SplitAtLast(a: Grant, b: Grant)
    requires ':' !in b.1 && Claim(a) == Claim(b)
    ensures |a.0| <= |b.0|
  {
    assert Claim(a)[|a.0|] == ':';
    forall i | |b.0| < i < |Claim(b)| ensures Claim(b)[i] != ':' {
      assert Claim(b)[i] == b.1[i - |b.0| - 1];
    }
  }

  /** Splitting a claim at its first colon; without one it is all resource. */
  function SplitAtFirst(claim: string): Grant {
    if claim == "" then ("", "")
    else if claim[0] == ':' then ("", claim[1..])
    else
      var rest := SplitAtFirst(claim[1..]);
      ([claim[0]] + rest.0, rest.1)
  }

  lemma {:induction false} SplitJoins(claim: string)
    ensures ':' !in SplitAtFirst(claim).0
    ensures if ':' in claim then claim == SplitAtFirst(claim).0 + ":" + SplitAtFirst(claim).1 else SplitAtFirst(claim) == (claim, "")
  {
    if claim != "" {
      assert claim == [claim[0]] + claim[1..];
      if claim[0] != ':' {
        SplitJoins(claim[1..]);
      }
    }
  }

  method SplitPermission(claim: string) returns (resource: Resource, action: Action)
    ensures (resource, action) == SplitAtFirst(claim)
    ensures ':' !in resource
    ensures if ':' in claim then claim == resource + ":" + action else resource == claim && action == ""
  {
    resource, action := SplitLoop(claim);
    SplitJoins(claim);
  }

  method SplitLoop(claim: string) returns (resource: Resource, action: Action)
    ensures (resource, action) == SplitAtFirst(claim)
  {
    var n := 0;
    assert claim[0..] == claim && claim[..0] + SplitAtFirst(claim).0 == SplitAtFirst(claim).0;
    while n < |claim|
      invariant 0 <= n <= |claim|
      invariant SplitAtFirst(claim) == (claim[..n] + SplitAtFirst(claim[n..]).0, SplitAtFirst(claim[n..]).1)
    {
      if claim[n] == ':' {
        assert claim[n..][0] == ':' && claim[n..][1..] == claim[n + 1..];
        assert claim[..n] + "" == claim[..n];
        return claim[..n], claim[n + 1..];
      }
      assert claim[n..][0] == claim[n] && claim[n..][1..] == claim[n + 1..];
      assert claim[..n] + ([claim[n]] + SplitAtFirst(claim[n + 1..]).0) == claim[..n + 1] + SplitAtFirst(claim[n + 1..]).0;
      n := n + 1;
    }
    assert claim[n..] == "" && claim[..n] + "" == claim;
    return claim, "";
  }

  lemma {:induction false} SplitOfPlain(r: Resource, a: Action)
    requires ':' !in r
    ensures SplitAtFirst(Claim((r, a))) == (r, a)
  {
    var s := Claim((r, a));
    if r == "" {
      assert s[0] == ':' && s[1..] == a;
    } else {
      SplitOfPlain(r[1..], a);
      assert s[0] == r[0] && s[1..] == Claim((r[1..], a));
      assert [r[0]] + r[1..] == r;
    }
  }

  /** A claim splits back into what it was made of exactly when its resource has no
      colon: with one, the permission checks that split claims look in the wrong place. */
  lemma SplitRoundTripsIff(g: Grant)
    ensures SplitAtFirst(Claim(g)) == g <==> ':' !in g.0
  {
    SplitJoins(Claim(g));
    if ':' !in g.0 {
      SplitOfPlain(g.0, g.1);
    }
  }

  // ----- The level map as it is changed and read -----

  predicate NoRepeats(list: seq<string>) {
    forall i, j :: 0 <= i < j < |list| ==> list[i] != list[j]
  }

  class PermissionMap {
    var levels: Levels

    constructor ()
      ensures levels == map[]
    {
      levels := map[];
    }

    /** Takes over every higher level of the other map, in whatever order its
        entries come. */
    method Merge(other: Levels)
      modifies this
      ensures levels == Merged(old(levels), other)
      ensures forall g: Grant :: Grants(levels, g) <==> Grants(old(levels), g) || Grants(other, g)
      ensures levels.Keys == old(levels).Keys + other.Keys
      ensures forall r :: r in levels ==> (r in old(levels) && levels[r] == old(levels)[r]) || (r in other && levels[r] == other[r])
    {
      var before := levels;
      var todo := other.Keys;
      while todo != {}
        invariant todo <= other.Keys
        invariant levels.Keys == before.Keys + (other.Keys - todo)
        invariant forall r :: r in levels ==> levels[r] == if r in todo || r !in other then before[r] else Higher(before, other, r)
        decreases todo
      {
        var r :| r in todo;
        if r !in levels || Rank(other[r]) > Rank(levels[r]) {
          levels := levels[r := other[r]];
        }
        todo := todo - {r};
      }
      forall g: Grant ensures Grants(Merged(before, other), g) <==> Grants(before, g) || Grants(other, g) {
        MergeIsJoin(before, other, g);
      }
    }

    /** Expands the levels to a flat list of claims. */
    method ToStringList() returns (list: seq<string>)
      ensures NoRepeats(list)
      ensures forall g: Grant :: Grants(levels, g) ==> g.0 + ":" + g.1 in list
      ensures forall s :: s in list ==> exists g: Grant :: s == g.0 + ":" + g.1 && Grants(levels, g)
    {
      list := [];
      var todo := levels.Keys;
      while todo != {}
        invariant todo <= levels.Keys && NoRepeats(list)
        invariant forall g: Grant :: g.0 !in todo && Grants(levels, g) ==> Claim(g) in list
        invariant forall s :: s in list ==> exists g: Grant :: s == Claim(g) && g.0 !in todo && Grants(levels, g)
        decreases todo
      {
        var r :| r in todo;
        var claims := ClaimsFor(r, levels[r]);
        AppendClaims(levels, todo, list, r, claims);
        ClaimsComplete(levels, r, claims);
        list := list + claims;
        todo := todo - {r};
      }
    }

    static method ClaimsFor(r: Resource, level: Level) returns (claims: seq<string>)
      ensures ClaimsOf(r, level, claims)
    {
      var actions := ActionsForLevel(level);
      claims := [];
      var n := 0;
      while n < |actions|
        invariant 0 <= n <= |actions| && |claims| == n
        invariant forall i :: 0 <= i < n ==> claims[i] == Claim((r, actions[i]))
      {
        claims := claims + [r + ":" + actions[n]];
        n := n + 1;
      }
    }

    method HasPermission(r: Resource, action: Action) returns (yes: bool)
      ensures yes <==> Grants(levels, (r, action))
      ensures yes <==>
        && r in levels
        && (|| (levels[r] == "viewer" && action == "read")
            || (levels[r] == "editor" && action in {"create", "read", "update", "delete"})
            || (levels[r] == "admin" && action in {"create", "read", "update", "delete", "export", "import", "restore", "approve"}))
    {
      if r in levels {
        LevelActions(levels[r], action);
      }
      if r !in levels {
        return false;
      }
      var actions := ActionsForLevel(levels[r]);
      var n := 0;
      while n < |actions|
        invariant 0 <= n <= |actions| && action !in actions[..n]
      {
        if actions[n] == action {
          return true;
        }
        n := n + 1;
      }
      assert actions[..n] == actions;
      return false;
    }
  }

  predicate ClaimsOf(r: Resource, level: Level, claims: seq<string>) {
    && |claims| == |ActionsForLevel(level)|
    && forall i :: 0 <= i < |claims| ==> claims[i] == Claim((r, ActionsForLevel(level)[i]))
  }

  lemma ClaimsUnrepeated(r: Resource, level: Level, claims: seq<string>)
    requires ClaimsOf(r, level, claims)
    ensures NoRepeats(claims)
  {
    var actions := ActionsForLevel(level);
    ActionsUnrepeated(level);
    forall i, j | 0 <= i < j < |claims| ensures claims[i] != claims[j] {
      if claims[i] == claims[j] {
        ClaimInjective((r, actions[i]), (r, actions[j]));
      }
    }
  }

  /** The claims of another resource are new. */
  lemma ClaimsNew(levels: Levels, g: Grant, r: Resource, claims: seq<string>)
    requires r in levels && ClaimsOf(r, levels[r], claims) && Grants(levels, g) && g.0 != r
    ensures Claim(g) !in claims
  {
    var actions := ActionsForLevel(levels[r]);
    forall j | 0 <= j < |claims| ensures Claim(g) != claims[j] {
      ActionsHaveNoColon(levels[g.0], g.1);
      if Claim(g) == claims[j] {
        ClaimInjective(g, (r, actions[j]));
      }
    }
  }

  lemma ClaimsComplete(levels: Levels, r: Resource, claims: seq<string>)
    requires r in levels && ClaimsOf(r, levels[r], claims)
    ensures forall g: Grant :: g.0 == r && Grants(levels, g) ==> Claim(g) in claims
    ensures forall s :: s in claims ==> exists g: Grant :: s == Claim(g) && g.0 == r && Grants(levels, g)
  {
    var actions := ActionsForLevel(levels[r]);
    forall g: Grant | g.0 == r && Grants(levels, g) ensures Claim(g) in claims {
      var i :| 0 <= i < |actions| && actions[i] == g.1;
      assert claims[i] == Claim(g);
    }
    forall s | s in claims ensures exists g: Grant :: s == Claim(g) && g.0 == r && Grants(levels, g) {
      var i :| 0 <= i < |claims| && claims[i] == s;
      assert Grants(levels, (r, actions[i]));
    }
  }

  /** The claims of one more resource are new and all there. */
  lemma AppendClaims(levels: Levels, todo: set<Resource>, list: seq<string>, r: Resource, claims: seq<string>)
    requires r in todo && todo <= levels.Keys && NoRepeats(list) && ClaimsOf(r, levels[r], claims)
    requires forall s :: s in list ==> exists g: Grant :: s == Claim(g) && g.0 !in todo && Grants(levels, g)
    ensures NoRepeats(list + claims)
  {
    ClaimsUnrepeated(r, levels[r], claims);
    forall i | 0 <= i < |list| ensures list[i] !in claims {
      assert list[i] in list;
      var g: Grant :| list[i] == Claim(g) && g.0 !in todo && Grants(levels, g);
      ClaimsNew(levels, g, r, claims);
    }
  }

  /** A user's claims: the active roles merged, then expanded. As a list without
      repeats, exactly what some active role grants alone. */
  method GetUserPermissions(roles: seq<Role>) returns (list: seq<string>)
    ensures NoRepeats(list)
    ensures forall g: Grant :: SomeRoleGrants(roles, g) ==> g.0 + ":" + g.1 in list
    ensures forall s :: s in list ==> exists g: Grant :: s == g.0 + ":" + g.1 && SomeRoleGrants(roles, g)
  {
    var merged := new PermissionMap();
    var n := 0;
    while n < |roles|
      invariant 0 <= n <= |roles| && merged.levels == MergedRoles(roles[..n])
    {
      assert roles[..n + 1][..n] == roles[..n];
      if roles[n].active {
        merged.Merge(roles[n].levels);
      }
      n := n + 1;
    }
    assert roles[..n] == roles;
    list := merged.ToStringList();
    forall g: Grant ensures Grants(merged.levels, g) <==> SomeRoleGrants(roles, g) {
      MergedGrantUnion(roles, g);
    }
  }
}
