/** Branch access: reconciling what a user may enter with what an administrator asks
    for, within the companies that administrator can see. */
module UserBranches {
  import opened Common
  import Tree = CompanyTree

  type UserId = nat
  type BranchId = nat
  type CompanyId = Tree.CompanyId
  type MembershipId = nat

  datatype Branch = Branch(company: CompanyId, deleted: bool)

  datatype Membership = Membership(user: UserId, branch: BranchId, deleted: bool)

  /** A membership as the reads return it. */
  datatype Row = Row(id: MembershipId, branch: BranchId)

  datatype Error = InvalidBranch(branch: BranchId) | BranchNotInScope(branch: BranchId)

  // ----- What a sync is for -----

  predicate Resolved(branches: map<BranchId, Branch>, b: BranchId) {
    b in branches && !branches[b].deleted
  }

  /** The caller may decide about the branch: it resolves, and its company is visible
      from the caller's own, when the caller is held to one. */
  ghost predicate InScope(branches: map<BranchId, Branch>, companies: Tree.Companies, scope: Option<CompanyId>, b: BranchId) {
    Resolved(branches, b) && (scope.Some? ==> Tree.Visible(companies, scope.value, branches[b].company))
  }

  /** The branches a sync leaves: those asked for and, for a scoped caller, those it
      may not decide about. */
  ghost function Wanted(branches: map<BranchId, Branch>, companies: Tree.Companies, scope: Option<CompanyId>,
                        current: set<BranchId>, desired: set<BranchId>): set<BranchId> {
    desired + set b | b in current && scope.Some? && !InScope(branches, companies, scope, b)
  }

  /** Asking again for the same changes nothing more. */
  lemma WantedAgain(branches: map<BranchId, Branch>, companies: Tree.Companies, scope: Option<CompanyId>,
                    current: set<BranchId>, desired: set<BranchId>)
    ensures var once := Wanted(branches, companies, scope, current, desired);
      Wanted(branches, companies, scope, once, desired) == once
  {}

  /** An unscoped caller decides about everything. */
  lemma UnscopedIsExact(branches: map<BranchId, Branch>, companies: Tree.Companies, current: set<BranchId>, desired: set<BranchId>)
    ensures Wanted(branches, companies, None, current, desired) == desired
  {}

  /** Whether a sync must take the branch away: it is not asked for, and the caller
      may decide about it. */
  ghost predicate Extra(branches: map<BranchId, Branch>, companies: Tree.Companies, scope: Option<CompanyId>,
                        desired: set<BranchId>, b: BranchId) {
    b !in desired && (scope == None || InScope(branches, companies, scope, b))
  }

  /** The branches of the rows that a sync must take away. */
  ghost function Taken(branches: map<BranchId, Branch>, companies: Tree.Companies, scope: Option<CompanyId>,
                       desired: set<BranchId>, rows: seq<Row>): set<BranchId> {
    set row | row in rows && Extra(branches, companies, scope, desired, row.branch) :: row.branch
  }

  lemma TakenNone(branches: map<BranchId, Branch>, companies: Tree.Companies, scope: Option<CompanyId>, desired: set<BranchId>)
    ensures Taken(branches, companies, scope, desired, []) == {}
  {}

  lemma TakenOneMore(branches: map<BranchId, Branch>, companies: Tree.Companies, scope: Option<CompanyId>,
                     desired: set<BranchId>, rows: seq<Row>, n: nat)
    requires n < |rows|
    ensures Taken(branches, companies, scope, desired, rows[..n + 1])
         == Taken(branches, companies, scope, desired, rows[..n])
          + if Extra(branches, companies, scope, desired, rows[n].branch) then {rows[n].branch} else {}
  {
    assert rows[..n + 1] == rows[..n] + [rows[n]];
  }

  /** What was held, with what is asked for granted and the extras taken away, is what
      is wanted. */
  lemma SyncedIsWanted(branches: map<BranchId, Branch>, companies: Tree.Companies, scope: Option<CompanyId>,
                       held: set<BranchId>, desired: set<BranchId>, rows: seq<Row>)
    requires forall b :: b in held <==> exists row :: row in rows && row.branch == b
    ensures held + desired - Taken(branches, companies, scope, desired, rows) == Wanted(branches, companies, scope, held, desired)
    ensures held == Wanted(branches, companies, scope, held, desired) ==>
      desired <= held && Taken(branches, companies, scope, desired, rows) == {}
  {
    var taken, wanted := Taken(branches, companies, scope, desired, rows), Wanted(branches, companies, scope, held, desired);
    forall b | b in held ensures b in taken <==> Extra(branches, companies, scope, desired, b) {
      var row :| row in rows && row.branch == b;
    }
    forall b | b in taken ensures b in held && b !in desired {
      var row :| row in rows && Extra(branches, companies, scope, desired, row.branch) && row.branch == b;
    }
    assert taken <= held && taken * wanted == {};
  }

  // ----- Lists without repeats -----

  predicate Unrepeated(ids: seq<BranchId>) {
    forall i, j :: 0 <= i < j < |ids| ==> ids[i] != ids[j]
  }

  /** The first occurrence of each id, in order. */
  function FirstOccurrences(ids: seq<BranchId>): (r: seq<BranchId>)
    ensures Unrepeated(r) && forall b :: b in r <==> b in ids
  {
    if ids == [] then []
    else
      var last := |ids| - 1;
      var front := FirstOccurrences(ids[..last]);
      assert ids == ids[..last] + [ids[last]];
      if ids[last] in front then front else front + [ids[last]]
  }

  /** Each id stands where it first occurred: no repeat, nothing lost, in order. */
  ghost predicate InOrder(ids: seq<BranchId>, r: seq<BranchId>, places: seq<nat>) {
    && |places| == |r|
    && (forall i :: 0 <= i < |r| ==> places[i] < |ids| && ids[places[i]] == r[i] && r[i] !in ids[..places[i]])
    && (forall i, j :: 0 <= i < j < |r| ==> places[i] < places[j])
  }

  lemma {:induction false} OccurrencesInOrder(ids: seq<BranchId>) returns (places: seq<nat>)
    ensures InOrder(ids, FirstOccurrences(ids), places)
  {
    places := [];
    if ids != [] {
      var last := |ids| - 1;
      places := OccurrencesInOrder(ids[..last]);
      var front := FirstOccurrences(ids[..last]);
      forall i | 0 <= i < |front| ensures ids[places[i]] == front[i] && front[i] !in ids[..places[i]] {
        assert ids[..last][..places[i]] == ids[..places[i]];
      }
      if ids[last] !in front {
        places := places + [last];
      }
    }
  }

  method Dedupe(ids: seq<BranchId>) returns (out: seq<BranchId>)
    ensures out == FirstOccurrences(ids)
    ensures (forall b :: b in out <==> b in ids) && exists places :: InOrder(ids, out, places)
  {
    ghost var places := OccurrencesInOrder(ids);
    var seen: set<BranchId> := {};
    out := [];
    var n := 0;
    while n < |ids|
      invariant 0 <= n <= |ids| && out == FirstOccurrences(ids[..n])
      invariant forall b :: b in seen <==> b in out
    {
      assert ids[..n + 1][..n] == ids[..n];
      if ids[n] !in seen {
        seen := seen + {ids[n]};
        out := out + [ids[n]];
      }
      n := n + 1;
    }
    assert ids[..n] == ids;
  }

  class UserBranchService {
    /** Tells which companies a scope reaches; without it scopes are not enforced. */
    const resolver: Tree.CompanyService?
    var branches: map<BranchId, Branch>
    var memberships: map<MembershipId, Membership>
    var nextId: MembershipId

    constructor (companies: Tree.CompanyService?, known: map<BranchId, Branch>)
      ensures resolver == companies && branches == known && memberships == map[] && Valid()
    {
      resolver, branches, memberships, nextId := companies, known, map[], 0;
    }

    predicate Active(id: MembershipId)
      reads this
    {
      id in memberships && !memberships[id].deleted
    }

    /** A user has a branch at most once, and the next id is unused. */
    ghost predicate Valid()
      reads this
    {
      && (forall id :: id in memberships ==> id < nextId)
      && (forall a, b :: Active(a) && Active(b) && memberships[a].user == memberships[b].user && memberships[a].branch == memberships[b].branch ==> a == b)
    }

    /** The branches the user may enter. */
    function Access(user: UserId): set<BranchId>
      reads this
    {
      set id | id in memberships && !memberships[id].deleted && memberships[id].user == user :: memberships[id].branch
    }

    ghost predicate ResolverValid()
      reads resolver
    {
      resolver != null ==> resolver.Valid()
    }

    /** The company the caller is held to. */
    function Enforced(scope: Option<CompanyId>): Option<CompanyId> {
      if resolver == null then None else scope
    }

    ghost function Companies(): Tree.Companies
      reads resolver
    {
      if resolver == null then map[] else resolver.companies
    }

    ghost predicate Allowed(scope: Option<CompanyId>, b: BranchId)
      reads this, resolver
    {
      InScope(branches, Companies(), Enforced(scope), b)
    }

    /** Every branch must exist and, for a scoped caller, lie in scope. */
    method ValidateBranches(ids: seq<BranchId>, scope: Option<CompanyId>) returns (error: Option<Error>)
      requires ResolverValid()
      ensures error == None <==> forall b :: b in ids ==> Allowed(scope, b)
      ensures error == None ==> forall b :: b in ids ==>
        && b in branches && !branches[b].deleted
        && (scope.Some? && resolver != null ==> Tree.Visible(resolver.companies, scope.value, branches[b].company))
      ensures error.Some? ==>
        var b := error.value.branch;
        && b in ids
        && if error.value.InvalidBranch? then b !in branches || branches[b].deleted
           else b in branches && !branches[b].deleted && scope.Some? && resolver != null
                && !Tree.Visible(resolver.companies, scope.value, branches[b].company)
    {
      if |ids| == 0 {
        return None;
      }
      var n := 0;
      while n < |ids|
        invariant 0 <= n <= |ids| && forall b :: b in ids[..n] ==> Resolved(branches, b)
      {
        if !Resolved(branches, ids[n]) {
          assert !Allowed(scope, ids[n]);
          return Some(InvalidBranch(ids[n]));
        }
        n := n + 1;
      }
      assert ids[..n] == ids;
      if scope == None || resolver == null {
        return None;
      }
      var visible := resolver.VisibleCompanyIds(scope.value);
      n := 0;
      while n < |ids|
        invariant 0 <= n <= |ids| && forall b :: b in ids ==> Resolved(branches, b)
        invariant forall b :: b in ids[..n] ==> Allowed(scope, b)
      {
        assert Resolved(branches, ids[n]);
        if branches[ids[n]].company !in visible {
          assert !Allowed(scope, ids[n]);
          return Some(BranchNotInScope(ids[n]));
        }
        n := n + 1;
      }
      assert ids[..n] == ids;
      return None;
    }
  
    ghost predicate Holds(user: UserId, row: Row)
      reads this
    {
      row.id in memberships && memberships[row.id] == Membership(user, row.branch, false)
    }

    /** The user's active memberships, each once. */
    method FindByUser(user: UserId) returns (rows: seq<Row>)
      ensures forall row :: row in rows <==> Holds(user, row)
      ensures forall i, j :: 0 <= i < j < |rows| ==> rows[i].id != rows[j].id
    {
      rows := [];
      var todo := memberships.Keys;
      while todo != {}
        invariant todo <= memberships.Keys
        invariant forall row :: row in rows <==> row.id !in todo && Holds(user, row)
        invariant forall i, j :: 0 <= i < j < |rows| ==> rows[i].id != rows[j].id
        decreases todo
      {
        var id :| id in todo;
        if Active(id) && memberships[id].user == user {
          var row := Row(id, memberships[id].branch);
          assert Holds(user, row);
          assert forall k :: 0 <= k < |rows| ==> rows[k] in rows;
          rows := rows + [row];
        }
        todo := todo - {id};
      }
    }

    lemma HeldByRows(user: UserId, rows: seq<Row>)
      requires forall row :: row in rows <==> Holds(user, row)
      ensures forall b :: b in Access(user) <==> exists row :: row in rows && row.branch == b
    {
      forall b | b in Access(user) ensures exists row :: row in rows && row.branch == b {
        var id :| id in memberships && !memberships[id].deleted && memberships[id].user == user && memberships[id].branch == b;
        assert Holds(user, Row(id, b));
      }
    }

    /** Grants one branch in a new row. */
    method CreateMembership(user: UserId, branch: BranchId)
      requires Valid() && branch !in Access(user)
      modifies this`memberships, this`nextId
      ensures Valid()
      ensures memberships == old(memberships)[old(nextId) := Membership(user, branch, false)] && old(nextId) !in old(memberships)
      ensures Access(user) == old(Access(user)) + {branch}
      ensures forall other: UserId :: other != user ==> Access(other) == old(Access(other))
    {
      ghost var before := memberships;
      memberships := memberships[nextId := Membership(user, branch, false)];
      nextId := nextId + 1;
      assert forall id :: id in before ==> id in memberships && memberships[id] == before[id];
      assert memberships[nextId - 1] == Membership(user, branch, false) && nextId - 1 in memberships;
    }

    /** Takes one active membership away; the row stays, marked deleted. */
    method SoftDelete(id: MembershipId)
      requires Valid() && Active(id)
      modifies this`memberships
      ensures Valid() && memberships == old(memberships)[id := old(memberships)[id].(deleted := true)]
      ensures Access(old(memberships)[id].user) == old(Access(memberships[id].user)) - {old(memberships)[id].branch}
      ensures forall other: UserId :: other != old(memberships)[id].user ==> Access(other) == old(Access(other))
    {
      ghost var before, user, branch := memberships, memberships[id].user, memberships[id].branch;
      memberships := memberships[id := memberships[id].(deleted := true)];
      assert forall x :: x in before && x != id ==> x in memberships && memberships[x] == before[x];
      forall b | b in old(Access(user)) && b != branch ensures b in Access(user) {
        var x :| x in before && !before[x].deleted && before[x].user == user && before[x].branch == b;
        assert Active(x);
      }
    }
  
    /** Grants what is asked for and not yet held. */
    method AddMissing(user: UserId, desired: seq<BranchId>)
      requires Valid() && Unrepeated(desired)
      modifies this`memberships, this`nextId
      ensures Valid()
      ensures Access(user) == old(Access(user)) + set b | b in desired
      ensures forall other: UserId :: other != user ==> Access(other) == old(Access(other))
      ensures forall id :: id in old(memberships) ==> id in memberships && memberships[id] == old(memberships)[id]
      ensures (forall b :: b in desired ==> b in old(Access(user))) ==> memberships == old(memberships)
    {
      var held := Access(user);
      var n := 0;
      while n < |desired|
        invariant 0 <= n <= |desired| && Valid()
        invariant Access(user) == held + set b | b in desired[..n]
        invariant forall other: UserId :: other != user ==> Access(other) == old(Access(other))
        invariant forall id :: id in old(memberships) ==> id in memberships && memberships[id] == old(memberships)[id]
        invariant (forall b :: b in desired[..n] ==> b in held) ==> memberships == old(memberships)
      {
        assert desired[..n + 1] == desired[..n] + [desired[n]];
        if desired[n] !in held {
          CreateMembership(user, desired[n]);
        }
        n := n + 1;
      }
      assert desired[..n] == desired;
    }

    /** One row of the removal loop. */
    method RemoveOne(user: UserId, row: Row, desired: set<BranchId>, scope: Option<CompanyId>, visible: seq<CompanyId>)
      requires Valid() && Holds(user, row)
      requires scope.Some? ==> resolver != null && forall c :: c in visible <==> Tree.Visible(Companies(), scope.value, c)
      modifies this`memberships
      ensures Valid()
      ensures Access(user) == old(Access(user)) - if Extra(branches, Companies(), scope, desired, row.branch) then {row.branch} else {}
      ensures forall other: UserId :: other != user ==> Access(other) == old(Access(other))
      ensures forall id :: id in old(memberships) && id != row.id ==> id in memberships && memberships[id] == old(memberships)[id]
      ensures !Extra(branches, Companies(), scope, desired, row.branch) ==> memberships == old(memberships)
    {
      if row.branch in desired {
        return;
      }
      if scope.Some? && !(Resolved(branches, row.branch) && branches[row.branch].company in visible) {
        return;
      }
      SoftDelete(row.id);
    }

    /** Takes away what is held, not asked for and in scope. */
    method RemoveExtras(user: UserId, rows: seq<Row>, desired: set<BranchId>, scope: Option<CompanyId>)
      requires Valid() && ResolverValid()
      requires forall row :: row in rows ==> Holds(user, row)
      requires forall i, j :: 0 <= i < j < |rows| ==> rows[i].id != rows[j].id
      modifies this`memberships
      ensures Valid()
      ensures Access(user) == old(Access(user)) - Taken(branches, Companies(), Enforced(scope), desired, rows)
      ensures forall other: UserId :: other != user ==> Access(other) == old(Access(other))
      ensures Taken(branches, Companies(), Enforced(scope), desired, rows) == {} ==> memberships == old(memberships)
    {
      hide Taken, InScope, Extra;
      var visible: seq<CompanyId> := [];
      if scope.Some? && resolver != null {
        visible := resolver.VisibleCompanyIds(scope.value);
      }
      var n := 0;
      TakenNone(branches, Companies(), Enforced(scope), desired);
      assert rows[..0] == [];
      while n < |rows|
        invariant 0 <= n <= |rows| && Valid()
        invariant Access(user) == old(Access(user)) - Taken(branches, Companies(), Enforced(scope), desired, rows[..n])
        invariant forall other: UserId :: other != user ==> Access(other) == old(Access(other))
        invariant forall k :: n <= k < |rows| ==> Holds(user, rows[k])
        invariant Taken(branches, Companies(), Enforced(scope), desired, rows[..n]) == {} ==> memberships == old(memberships)
      {
        TakenOneMore(branches, Companies(), Enforced(scope), desired, rows, n);
        RemoveOne(user, rows[n], desired, Enforced(scope), visible);
        n := n + 1;
      }
      assert rows[..n] == rows;
    }

    /** Grants and takes away, once the request is known to be valid. */
    method Reconcile(user: UserId, desired: seq<BranchId>, scope: Option<CompanyId>)
      requires Valid() && ResolverValid() && Unrepeated(desired)
      modifies this`memberships, this`nextId
      ensures Valid()
      ensures Access(user) == Wanted(branches, Companies(), Enforced(scope), old(Access(user)), set b | b in desired)
      ensures old(Access(user)) == Wanted(branches, Companies(), Enforced(scope), old(Access(user)), set b | b in desired)
        ==> memberships == old(memberships)
      ensures forall other: UserId :: other != user ==> Access(other) == old(Access(other))
    {
      hide Taken, Wanted, InScope, Extra;
      var current := FindByUser(user);
      ghost var held := Access(user);
      var desiredSet := set b | b in desired;
      HeldByRows(user, current);
      SyncedIsWanted(branches, Companies(), Enforced(scope), held, desiredSet, current);
      AddMissing(user, desired);
      RemoveExtras(user, current, desiredSet, scope);
    }

    /** Reconciles a user's branches with the list asked for. A list with an unknown
        or out-of-scope branch changes nothing; a scoped caller leaves what it cannot
        decide about; and asking for what is already so changes nothing. */
    method SyncUserBranches(user: UserId, branchIds: seq<BranchId>, scope: Option<CompanyId>) returns (error: Option<Error>)
      requires Valid() && ResolverValid()
      modifies this`memberships, this`nextId
      ensures Valid()
      ensures error == None <==> forall b :: b in branchIds ==> Allowed(scope, b)
      ensures error == None <==> forall b :: b in branchIds ==>
        && b in branches && !branches[b].deleted
        && (scope.Some? && resolver != null ==> Tree.Visible(resolver.companies, scope.value, branches[b].company))
      ensures error != None ==> memberships == old(memberships)
      ensures error == None ==> Access(user) == Left(scope, old(Access(user)), branchIds)
      ensures error == None ==> forall b :: b in Access(user) <==>
        || b in branchIds
        || (b in old(Access(user)) && scope.Some? && resolver != null
            && !(b in branches && !branches[b].deleted && Tree.Visible(resolver.companies, scope.value, branches[b].company)))
      ensures error == None && Enforced(scope) == None ==> Access(user) == set b | b in branchIds
      ensures error == None && old(Access(user)) == Left(scope, old(Access(user)), branchIds) ==> memberships == old(memberships)
      ensures forall other: UserId :: other != user ==> Access(other) == old(Access(other))
    {
      hide InScope, Unrepeated, Access, Tree.Visible, Resolved;
      var desired := Dedupe(branchIds);
      error := ValidateBranches(desired, scope);
      if error != None {
        return;
      }
      assert (set b | b in desired) == set b | b in branchIds;
      UnscopedIsExact(branches, Companies(), Access(user), set b | b in branchIds);
      LeftMeans(scope, Access(user), branchIds);
      Reconcile(user, desired, scope);
    }

    /** What a sync leaves of the branches held. */
    ghost function Left(scope: Option<CompanyId>, held: set<BranchId>, branchIds: seq<BranchId>): set<BranchId>
      reads this, resolver
    {
      Wanted(branches, Companies(), Enforced(scope), held, set b | b in branchIds)
    }

    lemma LeftMeans(scope: Option<CompanyId>, held: set<BranchId>, branchIds: seq<BranchId>)
      ensures forall b :: b in Left(scope, held, branchIds) <==>
        || b in branchIds
        || (b in held && scope.Some? && resolver != null
            && !(b in branches && !branches[b].deleted && Tree.Visible(resolver.companies, scope.value, branches[b].company)))
    {}

    /** A second identical sync answers alike and changes no row. */
    method SyncTwice(user: UserId, branchIds: seq<BranchId>, scope: Option<CompanyId>)
      returns (first: Option<Error>, second: Option<Error>, ghost once: map<MembershipId, Membership>)
      requires Valid() && ResolverValid()
      modifies this`memberships, this`nextId
      ensures Valid() && memberships == once
      ensures second == None <==> first == None
      ensures first == None ==> Access(user) == Left(scope, old(Access(user)), branchIds)
      ensures first != None ==> once == old(memberships)
    {
      ghost var held, desired := Access(user), set b | b in branchIds;
      first := SyncUserBranches(user, branchIds, scope);
      once := memberships;
      WantedAgain(branches, Companies(), Enforced(scope), held, desired);
      second := SyncUserBranches(user, branchIds, scope);
    }
  }
}
