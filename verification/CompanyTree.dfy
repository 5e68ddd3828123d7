/** The company hierarchy: a forest in every reachable state, one client per tree,
    and recursive queries, up and down, that agree about who is above whom. */
module CompanyTree {
  import opened Common

  type CompanyId = nat
  type ClientId = nat
  type UserId = nat

  datatype Company = Company(parent: Option<CompanyId>, client: ClientId, owner: UserId, deleted: bool)

  type Companies = map<CompanyId, Company>

  predicate Live(t: Companies, x: CompanyId) {
    x in t && !t[x].deleted
  }

  // ----- What changes the table -----

  datatype Change =
    | Add(id: CompanyId, row: Company)
    | Delete(id: CompanyId)
    | Restore(id: CompanyId)
    | Transfer(id: CompanyId, owner: UserId)

  /** A new company hangs under a live one, with its client, or stands alone. */
  predicate MayAdd(t: Companies, id: CompanyId, row: Company) {
    && id !in t && !row.deleted
    && (row.parent.Some? ==> Live(t, row.parent.value) && row.client == t[row.parent.value].client)
  }

  function Apply(t: Companies, c: Change): Companies {
    match c
    case Add(id, row) => if MayAdd(t, id, row) then t[id := row] else t
    case Delete(id) => if Live(t, id) then t[id := t[id].(deleted := true)] else t
    case Restore(id) => if id in t && t[id].deleted then t[id := t[id].(deleted := false)] else t
    case Transfer(id, owner) => if Live(t, id) then t[id := t[id].(owner := owner)] else t
  }

  function After(changes: seq<Change>): Companies {
    if changes == [] then map[]
    else Apply(After(changes[..|changes| - 1]), changes[|changes| - 1])
  }

  // ----- The forest -----

  /** Every parent is a row, one level up. */
  predicate Ranked(t: Companies, depth: map<CompanyId, nat>) {
    && depth.Keys == t.Keys
    && forall x :: x in t && t[x].parent.Some? ==> t[x].parent.value in t && depth[x] == depth[t[x].parent.value] + 1
  }

  /** Following parents always comes to an end. */
  ghost predicate Forest(t: Companies) {
    exists depth :: Ranked(t, depth)
  }

  /** Children have their parent's client, deleted or not. */
  predicate ClientsShared(t: Companies) {
    forall x :: x in t && t[x].parent.Some? && t[x].parent.value in t ==> t[x].client == t[t[x].parent.value].client
  }

  function DepthAfter(t: Companies, depth: map<CompanyId, nat>, c: Change): map<CompanyId, nat>
    requires Ranked(t, depth)
  {
    if c.Add? && MayAdd(t, c.id, c.row)
    then depth[c.id := if c.row.parent.Some? then depth[c.row.parent.value] + 1 else 0]
    else depth
  }

  lemma ApplyKeeps(t: Companies, depth: map<CompanyId, nat>, c: Change)
    requires Ranked(t, depth) && ClientsShared(t)
    ensures Ranked(Apply(t, c), DepthAfter(t, depth, c)) && ClientsShared(Apply(t, c))
  {
    if c.Add? {
      if MayAdd(t, c.id, c.row) {
        AddKeeps(t, depth, c.id, c.row);
      }
    } else if c.id in t {
      RowKeeps(t, depth, c.id, t[c.id].(deleted := true));
      RowKeeps(t, depth, c.id, t[c.id].(deleted := false));
      if c.Transfer? {
        RowKeeps(t, depth, c.id, t[c.id].(owner := c.owner));
      }
    }
  }

  lemma AddKeeps(t: Companies, depth: map<CompanyId, nat>, id: CompanyId, row: Company)
    requires Ranked(t, depth) && ClientsShared(t) && MayAdd(t, id, row)
    ensures Ranked(t[id := row], DepthAfter(t, depth, Add(id, row))) && ClientsShared(t[id := row])
  {}

  /** Nothing that leaves parent and client alone can harm the forest. */
  lemma RowKeeps(t: Companies, depth: map<CompanyId, nat>, id: CompanyId, row: Company)
    requires Ranked(t, depth) && ClientsShared(t) && id in t && row.parent == t[id].parent && row.client == t[id].client
    ensures Ranked(t[id := row], depth) && ClientsShared(t[id := row])
  {
    assert t[id := row].Keys == t.Keys;
  }

  /** Create, delete, restore and transfer, in any order, keep a forest with one
      client per tree. */
  lemma {:induction false} EveryRunIsForest(changes: seq<Change>)
    ensures Forest(After(changes)) && ClientsShared(After(changes))
  {
    if changes == [] {
      assert Ranked(map[], map[]);
    } else {
      var last := |changes| - 1;
      EveryRunIsForest(changes[..last]);
      var depth :| Ranked(After(changes[..last]), depth);
      ApplyKeeps(After(changes[..last]), depth, changes[last]);
    }
  }

  // ----- Upwards -----

  /** The recursive query for ancestors: the parent if live, then its parent if live. */
  function Ancestors(t: Companies, depth: map<CompanyId, nat>, x: CompanyId): (r: seq<CompanyId>)
    requires Ranked(t, depth) && x in t
    ensures forall i :: 0 <= i < |r| ==> r[i] in t && Live(t, r[i]) && depth[r[i]] < depth[x]
    ensures forall i, j :: 0 <= i < j < |r| ==> r[i] != r[j]
    decreases depth[x]
  {
    if t[x].parent.Some? && Live(t, t[x].parent.value) then
      var p := t[x].parent.value;
      [p] + Ancestors(t, depth, p)
    else []
  }

  /** From x to its parent, its parent's parent and so on, all live, up to one whose
      parent is missing or deleted. */
  predicate ClimbsFrom(t: Companies, x: CompanyId, ids: seq<CompanyId>)
    requires x in t
  {
    && (forall i :: 0 <= i < |ids| ==> ids[i] in t && !t[ids[i]].deleted)
    && (ids != [] ==> t[x].parent == Some(ids[0]))
    && (forall i, j :: 0 <= i < |ids| && 0 <= j < |ids| && j == i + 1 ==> t[ids[i]].parent == Some(ids[j]))
    && var top := t[if ids == [] then x else ids[|ids| - 1]].parent;
       top.Some? ==> top.value !in t || t[top.value].deleted
  }

  lemma {:induction false} AncestorsClimb(t: Companies, depth: map<CompanyId, nat>, x: CompanyId)
    requires Ranked(t, depth) && x in t
    ensures ClimbsFrom(t, x, Ancestors(t, depth, x))
    decreases depth[x]
  {
    if t[x].parent.Some? && Live(t, t[x].parent.value) {
      var p := t[x].parent.value;
      AncestorsClimb(t, depth, p);
      assert Ancestors(t, depth, x) == [p] + Ancestors(t, depth, p);
    }
  }

  // ----- Downwards -----

  function LiveChildren(t: Companies, p: CompanyId): set<CompanyId> {
    set x | x in t && Live(t, x) && t[x].parent == Some(p)
  }

  /** A recursive query downwards, one round at a time: where it starts, then the live
      children of the round before. */
  ghost function Level(t: Companies, from: set<CompanyId>, n: nat): set<CompanyId> {
    if n == 0 then from
    else
      var above := Level(t, from, n - 1);
      set x | x in t && Live(t, x) && t[x].parent.Some? && t[x].parent.value in above
  }

  ghost predicate Found(t: Companies, from: set<CompanyId>, x: CompanyId) {
    exists n: nat :: x in Level(t, from, n)
  }

  /** The query for visible companies starts at its root, if that is live. */
  ghost predicate Visible(t: Companies, root: CompanyId, x: CompanyId) {
    Found(t, if Live(t, root) then {root} else {}, x)
  }

  /** The query for descendants starts at the live children of its root, and does not
      ask whether the root is live. */
  ghost predicate Descendant(t: Companies, root: CompanyId, x: CompanyId) {
    Found(t, LiveChildren(t, root), x)
  }

  /** Live companies on one level of the forest, where a query may start. */
  predicate Peers(t: Companies, depth: map<CompanyId, nat>, from: set<CompanyId>, d: nat)
    requires depth.Keys == t.Keys
  {
    forall x :: x in from ==> Live(t, x) && depth[x] == d
  }

  lemma {:induction false} LevelDepth(t: Companies, depth: map<CompanyId, nat>, from: set<CompanyId>, d: nat, n: nat, x: CompanyId)
    requires Ranked(t, depth) && Peers(t, depth, from, d) && x in Level(t, from, n)
    ensures Live(t, x) && depth[x] == d + n
  {
    if n > 0 {
      LevelDepth(t, depth, from, d, n - 1, t[x].parent.value);
    }
  }

  /** A query lists each member once: it is found in one round only. */
  lemma OneRoundEach(t: Companies, depth: map<CompanyId, nat>, from: set<CompanyId>, d: nat, n: nat, m: nat, x: CompanyId)
    requires Ranked(t, depth) && Peers(t, depth, from, d) && x in Level(t, from, n) && x in Level(t, from, m)
    ensures n == m
  {
    LevelDepth(t, depth, from, d, n, x);
    LevelDepth(t, depth, from, d, m, x);
  }

  // ----- Upwards and downwards agree -----

  /** The root is the parent of x or of one of its ancestors. */
  predicate Above(t: Companies, depth: map<CompanyId, nat>, root: CompanyId, x: CompanyId)
    requires Ranked(t, depth) && x in t
  {
    t[x].parent == Some(root) || exists a :: a in Ancestors(t, depth, x) && t[a].parent == Some(root)
  }

  lemma AboveParent(t: Companies, depth: map<CompanyId, nat>, root: CompanyId, x: CompanyId)
    requires Ranked(t, depth) && x in t && t[x].parent.Some? && Live(t, t[x].parent.value)
    ensures Above(t, depth, root, x) <==> t[x].parent == Some(root) || Above(t, depth, root, t[x].parent.value)
  {
    var p := t[x].parent.value;
    assert Ancestors(t, depth, x) == [p] + Ancestors(t, depth, p);
    assert p in Ancestors(t, depth, x);
    assert forall a :: a in Ancestors(t, depth, x) <==> a == p || a in Ancestors(t, depth, p);
  }

  lemma {:induction false} NextRound(t: Companies, root: CompanyId, n: nat)
    ensures Level(t, LiveChildren(t, root), n) == Level(t, {root}, n + 1)
  {
    if n > 0 {
      NextRound(t, root, n - 1);
    }
  }

  lemma {:induction false} LevelAbove(t: Companies, depth: map<CompanyId, nat>, root: CompanyId, n: nat, x: CompanyId)
    requires Ranked(t, depth) && x in Level(t, LiveChildren(t, root), n)
    ensures Live(t, x) && Above(t, depth, root, x)
  {
    if n > 0 {
      LevelAbove(t, depth, root, n - 1, t[x].parent.value);
      AboveParent(t, depth, root, x);
    }
  }

  lemma {:induction false} AboveLevel(t: Companies, depth: map<CompanyId, nat>, root: CompanyId, x: CompanyId) returns (n: nat)
    requires Ranked(t, depth) && Live(t, x) && Above(t, depth, root, x)
    ensures x in Level(t, LiveChildren(t, root), n)
    decreases depth[x]
  {
    if t[x].parent == Some(root) {
      n := 0;
    } else {
      AboveParent(t, depth, root, x);
      var m := AboveLevel(t, depth, root, t[x].parent.value);
      n := m + 1;
    }
  }

  lemma {:induction false} AboveIsAncestor(t: Companies, depth: map<CompanyId, nat>, root: CompanyId, x: CompanyId)
    requires Ranked(t, depth) && Live(t, root) && x in t
    ensures Above(t, depth, root, x) <==> root in Ancestors(t, depth, x)
    decreases depth[x]
  {
    if t[x].parent.Some? && Live(t, t[x].parent.value) {
      var p := t[x].parent.value;
      AboveParent(t, depth, root, x);
      AboveIsAncestor(t, depth, root, p);
      assert Ancestors(t, depth, x) == [p] + Ancestors(t, depth, p);
    }
  }

  /** A live company is a descendant of any company, deleted ones included, exactly
      when that is the parent of it or of one of its ancestors. */
  lemma DescendantIffAbove(t: Companies, depth: map<CompanyId, nat>, root: CompanyId, x: CompanyId)
    requires Ranked(t, depth) && Live(t, x)
    ensures Descendant(t, root, x) <==> Above(t, depth, root, x)
  {
    if Descendant(t, root, x) {
      var n: nat :| x in Level(t, LiveChildren(t, root), n);
      LevelAbove(t, depth, root, n, x);
    }
    if Above(t, depth, root, x) {
      var n := AboveLevel(t, depth, root, x);
    }
  }

  /** What a live root sees is itself and its descendants. */
  lemma VisibleIffDescendant(t: Companies, root: CompanyId, x: CompanyId)
    requires Live(t, root)
    ensures Visible(t, root, x) <==> x == root || Descendant(t, root, x)
  {
    assert root in Level(t, {root}, 0);
    if Visible(t, root, x) {
      var n: nat :| x in Level(t, {root}, n);
      if n > 0 {
        NextRound(t, root, n - 1);
      }
    }
    if Descendant(t, root, x) {
      var n: nat :| x in Level(t, LiveChildren(t, root), n);
      NextRound(t, root, n);
    }
  }

  /** The queries agree: a live company is visible from a live root exactly when it is
      the root or the root is among its ancestors. */
  lemma VisibleIffAncestor(t: Companies, depth: map<CompanyId, nat>, root: CompanyId, x: CompanyId)
    requires Ranked(t, depth) && Live(t, x) && Live(t, root)
    ensures Visible(t, root, x) <==> x == root || root in Ancestors(t, depth, x)
  {
    VisibleIffDescendant(t, root, x);
    DescendantIffAbove(t, depth, root, x);
    AboveIsAncestor(t, depth, root, x);
  }

  /** A deleted root sees nothing, and still has its descendants. */
  lemma DeletedRootSeesNothing(t: Companies, root: CompanyId, x: CompanyId)
    requires !Live(t, root)
    ensures !Visible(t, root, x)
    ensures x in LiveChildren(t, root) ==> Descendant(t, root, x)
  {
    if Visible(t, root, x) {
      var n: nat :| x in Level(t, {}, n);
      NothingFound(t, n);
    }
    assert x in LiveChildren(t, root) ==> x in Level(t, LiveChildren(t, root), 0);
  }

  /** A live root sees another company exactly when that is live and its parent is seen. */
  lemma VisibleByParent(t: Companies, depth: map<CompanyId, nat>, root: CompanyId, x: CompanyId)
    requires Ranked(t, depth) && Live(t, root) && Live(t, x) && x != root
    ensures Visible(t, root, x) <==> t[x].parent.Some? && Live(t, t[x].parent.value) && Visible(t, root, t[x].parent.value)
  {
    VisibleIffAncestor(t, depth, root, x);
    if t[x].parent.Some? && Live(t, t[x].parent.value) {
      VisibleIffAncestor(t, depth, root, t[x].parent.value);
    }
  }

  lemma VisibleIsLive(t: Companies, depth: map<CompanyId, nat>, root: CompanyId, x: CompanyId)
    requires Ranked(t, depth) && Live(t, root) && Visible(t, root, x)
    ensures Live(t, x) && depth[root] <= depth[x] && (x != root ==> depth[root] < depth[x])
  {
    var n: nat :| x in Level(t, {root}, n);
    LevelDepth(t, depth, {root}, depth[root], n, x);
  }

  lemma SeesItself(t: Companies, root: CompanyId)
    requires Live(t, root)
    ensures Visible(t, root, root)
  {
    assert root in Level(t, {root}, 0);
  }

  /** What a root sees of x through d. */
  ghost predicate SeesThrough(t: Companies, root: CompanyId, d: CompanyId, x: CompanyId) {
    Visible(t, root, d) && Visible(t, d, x)
  }

  /** Deleting a company hides from any other root exactly what that root saw through
      it, the company itself included; nothing new comes into sight. */
  lemma {:induction false} DeleteHides(t: Companies, depth: map<CompanyId, nat>, d: CompanyId, root: CompanyId, x: CompanyId)
    requires Ranked(t, depth) && Live(t, d) && Live(t, root) && root != d
    ensures var t2 := t[d := Company(t[d].parent, t[d].client, t[d].owner, true)];
      Visible(t2, root, x) <==> Visible(t, root, x) && !SeesThrough(t, root, d, x)
    decreases if x in depth then depth[x] else 0
  {
    hide Visible;
    var t2 := t[d := Company(t[d].parent, t[d].client, t[d].owner, true)];
    RowKeepsRank(t, depth, d, t2[d]);
    if !Live(t, x) {
      HiddenWhenDead(t, t2, depth, d, root, x);
    } else if x == root {
      RootStaysSeen(t, t2, depth, d, root);
    } else if x == d {
      DeletedIsHidden(t, t2, depth, d, root);
    } else {
      VisibleByParent(t, depth, root, x);
      VisibleByParent(t2, depth, root, x);
      VisibleByParent(t, depth, d, x);
      if t[x].parent.Some? && Live(t, t[x].parent.value) {
        DeleteHides(t, depth, d, root, t[x].parent.value);
        SeesItself(t, d);
      }
    }
  }

  lemma RowKeepsRank(t: Companies, depth: map<CompanyId, nat>, id: CompanyId, row: Company)
    requires Ranked(t, depth) && id in t && row.parent == t[id].parent
    ensures Ranked(t[id := row], depth)
  {
    assert t[id := row].Keys == t.Keys;
  }

  lemma HiddenWhenDead(t: Companies, t2: Companies, depth: map<CompanyId, nat>, d: CompanyId, root: CompanyId, x: CompanyId)
    requires Ranked(t, depth) && Ranked(t2, depth) && Live(t, root) && Live(t2, root) && !Live(t, x) && !Live(t2, x)
    ensures !Visible(t, root, x) && !Visible(t2, root, x)
  {
    if Visible(t, root, x) {
      VisibleIsLive(t, depth, root, x);
    }
    if Visible(t2, root, x) {
      VisibleIsLive(t2, depth, root, x);
    }
  }

  lemma RootStaysSeen(t: Companies, t2: Companies, depth: map<CompanyId, nat>, d: CompanyId, root: CompanyId)
    requires Ranked(t, depth) && Live(t, root) && Live(t2, root) && Live(t, d) && root != d
    ensures Visible(t, root, root) && Visible(t2, root, root) && !SeesThrough(t, root, d, root)
  {
    SeesItself(t, root);
    SeesItself(t2, root);
    if SeesThrough(t, root, d, root) {
      VisibleIsLive(t, depth, root, d);
      VisibleIsLive(t, depth, d, root);
    }
  }

  lemma DeletedIsHidden(t: Companies, t2: Companies, depth: map<CompanyId, nat>, d: CompanyId, root: CompanyId)
    requires Ranked(t2, depth) && Live(t2, root) && Live(t, d) && !Live(t2, d)
    ensures !Visible(t2, root, d) && Visible(t, d, d)
  {
    SeesItself(t, d);
    if Visible(t2, root, d) {
      VisibleIsLive(t2, depth, root, d);
    }
  }

  /** Restoring a company is the inverse: it brings back into sight exactly what is seen
      through it. */
  lemma RestoreShows(t: Companies, depth: map<CompanyId, nat>, d: CompanyId, root: CompanyId, x: CompanyId)
    requires Ranked(t, depth) && d in t && t[d].deleted && Live(t, root)
    ensures var t2 := t[d := Company(t[d].parent, t[d].client, t[d].owner, false)];
      && (Visible(t, root, x) <==> Visible(t2, root, x) && !SeesThrough(t2, root, d, x))
      && t2[d := Company(t[d].parent, t[d].client, t[d].owner, true)] == t
  {
    hide Visible;
    var t2 := t[d := Company(t[d].parent, t[d].client, t[d].owner, false)];
    RowKeepsRank(t, depth, d, t2[d]);
    DeleteHides(t2, depth, d, root, x);
    assert t2[d := Company(t[d].parent, t[d].client, t[d].owner, true)] == t;
  }

  lemma {:induction false} NothingFound(t: Companies, n: nat)
    ensures Level(t, {}, n) == {}
  {
    if n > 0 {
      NothingFound(t, n - 1);
    }
  }

  /** Everything visible from a root, and every descendant of any company, has its client. */
  lemma OneClientPerTree(t: Companies, depth: map<CompanyId, nat>, root: CompanyId, x: CompanyId)
    requires Ranked(t, depth) && ClientsShared(t) && root in t
    requires Visible(t, root, x) || Descendant(t, root, x)
    ensures x in t && t[x].client == t[root].client
  {
    if Live(t, root) {
      VisibleIffDescendant(t, root, x);
    } else if Visible(t, root, x) {
      DeletedRootSeesNothing(t, root, x);
    }
    if x != root {
      var n: nat :| x in Level(t, LiveChildren(t, root), n);
      LevelClient(t, root, n, x);
    }
  }

  lemma {:induction false} LevelClient(t: Companies, root: CompanyId, n: nat, x: CompanyId)
    requires ClientsShared(t) && root in t && x in Level(t, LiveChildren(t, root), n)
    ensures x in t && t[x].client == t[root].client
  {
    if n > 0 {
      LevelClient(t, root, n - 1, t[x].parent.value);
    }
  }

  // ----- The service -----

  datatype Error = OwnerAssignOnly | OwnerTransferOnly | ParentNotFound | NotAuthorized | ClientUnresolved | CompanyNotFound

  predicate Unrepeated(ids: seq<CompanyId>) {
    forall i, j :: 0 <= i < j < |ids| ==> ids[i] != ids[j]
  }

  /** A user's place in a company; primary is the company the user works in by default. */
  datatype Member = Member(company: CompanyId, user: UserId, primary: bool)

  predicate HasPrimary(members: set<Member>, user: UserId) {
    exists m :: m in members && m.user == user && m.primary
  }

  predicate Belongs(members: set<Member>, company: CompanyId, user: UserId) {
    exists m :: m in members && m.company == company && m.user == user
  }

  /** Every owner is a member of what it owns, and nobody has two primary companies. */
  predicate MembersOk(t: Companies, members: set<Member>) {
    && (forall x :: x in t ==> Belongs(members, x, t[x].owner))
    && (forall a, b :: a in members && b in members && a.primary && b.primary && a.user == b.user ==> a == b)
  }

  lemma MemberJoins(t: Companies, t2: Companies, members: set<Member>, id: CompanyId, m: Member)
    requires MembersOk(t, members) && id in t2 && m.company == id && m.user == t2[id].owner
    requires forall x :: x in t2 && x != id ==> x in t && t2[x].owner == t[x].owner
    requires m.primary ==> !HasPrimary(members, m.user)
    ensures MembersOk(t2, members + {m})
  {
    forall x | x in t2 ensures Belongs(members + {m}, x, t2[x].owner) {
      if x == id {
        assert m in members + {m};
      } else {
        var other :| other in members && other.company == x && other.user == t[x].owner;
        assert other in members + {m};
      }
    }
  }

  lemma SameMembers(t: Companies, t2: Companies, members: set<Member>, id: CompanyId)
    requires MembersOk(t, members) && id in t2 && Belongs(members, id, t2[id].owner)
    requires forall x :: x in t2 && x != id ==> x in t && t2[x].owner == t[x].owner
    ensures MembersOk(t2, members)
  {}

  class CompanyService {
    const seedsBranches: bool
    var companies: Companies
    var members: set<Member>
    /** The companies with their default branch. */
    var defaultBranches: set<CompanyId>
    ghost var depth: map<CompanyId, nat>

    ghost predicate Valid()
      reads this
    {
      Ranked(companies, depth) && ClientsShared(companies) && MembersOk(companies, members)
    }

    constructor (withBranches: bool)
      ensures Valid() && companies == map[] && members == {} && defaultBranches == {} && seedsBranches == withBranches
    {
      seedsBranches, companies, members, defaultBranches, depth := withBranches, map[], {}, {}, map[];
    }

    method GetPrimaryCompany(user: UserId) returns (primary: Option<CompanyId>)
      ensures primary.Some? <==> HasPrimary(members, user)
      ensures primary.Some? ==> Member(primary.value, user, true) in members
    {
      if m :| m in members && m.user == user && m.primary {
        return Some(m.company);
      }
      return None;
    }

    /** The parent's client; else the one a super admin names; else that of the
        caller's primary company; else the one the caller owns. */
    method ResolveClientId(caller: UserId, parentClient: Option<ClientId>, named: Option<ClientId>, superAdmin: bool, owned: Option<ClientId>)
      returns (client: Option<ClientId>, error: Option<Error>)
      requires MembersOk(companies, members)
      ensures client.Some? <==> error == None
      ensures parentClient.Some? ==> client == parentClient
      ensures parentClient == None && named.Some? ==> if superAdmin then client == named else error == Some(NotAuthorized)
      ensures parentClient == None && named == None ==>
        && (forall c :: Member(c, caller, true) in members && Live(companies, c) ==> client == Some(companies[c].client))
        && (!(exists c :: Member(c, caller, true) in members && Live(companies, c)) ==> client == owned)
      ensures client == None && error != Some(NotAuthorized) ==> error == Some(ClientUnresolved)
    {
      if parentClient.Some? {
        return parentClient, None;
      }
      if named.Some? {
        if !superAdmin {
          return None, Some(NotAuthorized);
        }
        return named, None;
      }
      var primary := GetPrimaryCompany(caller);
      if primary.Some? && Live(companies, primary.value) {
        return Some(companies[primary.value].client), None;
      }
      if owned.Some? {
        return owned, None;
      }
      return None, Some(ClientUnresolved);
    }

    /** Where the new company's client can come from. */
    ghost predicate Resolves(caller: UserId, parent: Option<CompanyId>, named: Option<ClientId>, superAdmin: bool, owned: Option<ClientId>)
      reads this
    {
      if parent.Some? then Live(companies, parent.value)
      else if named.Some? then superAdmin
      else owned.Some? || exists c :: Member(c, caller, true) in members && Live(companies, c)
    }

    /** The inserts of a creation: the company, its owner as a member, with the company
        as primary if the owner had none, and its default branch. */
    method InsertCompany(id: CompanyId, row: Company)
      requires Valid() && MayAdd(companies, id, row)
      modifies this
      ensures Valid() && companies == old(companies)[id := row]
      ensures members == old(members) + {Member(id, row.owner, !HasPrimary(old(members), row.owner))}
      ensures defaultBranches == old(defaultBranches) + if seedsBranches then {id} else {}
    {
      hide Ranked, ClientsShared, MembersOk;
      var primary := GetPrimaryCompany(row.owner);
      var member := Member(id, row.owner, primary.None?);
      ApplyKeeps(companies, depth, Add(id, row));
      MemberJoins(companies, companies[id := row], members, id, member);
      depth := DepthAfter(companies, depth, Add(id, row));
      companies := companies[id := row];
      members := members + {member};
      if seedsBranches {
        defaultBranches := defaultBranches + {id};
      }
    }

    /** A new company, for its creator or, by a super admin, for another owner. */
    method Create(id: CompanyId, parent: Option<CompanyId>, caller: UserId, owner: Option<UserId>, named: Option<ClientId>,
                  superAdmin: bool, owned: Option<ClientId>)
      returns (error: Option<Error>)
      requires Valid() && id !in companies
      modifies this
      ensures Valid()
      ensures error != None ==> companies == old(companies) && members == old(members) && defaultBranches == old(defaultBranches)
      ensures error == None ==>
        && id in companies && MayAdd(old(companies), id, companies[id])
        && companies == Apply(old(companies), Add(id, companies[id])) == old(companies)[id := companies[id]]
        && companies[id] == Company(parent, companies[id].client, if owner.Some? then owner.value else caller, false)
        && (parent.Some? ==> companies[id].client == old(companies)[parent.value].client)
        && members == old(members) + {Member(id, companies[id].owner, !HasPrimary(old(members), companies[id].owner))}
        && defaultBranches == old(defaultBranches) + if seedsBranches then {id} else {}
      ensures error == None && parent == None ==>
        && (named.Some? ==> companies[id].client == named.value)
        && (named == None ==>
              && (forall c :: Member(c, caller, true) in old(members) && c in old(companies) && !old(companies)[c].deleted ==>
                    companies[id].client == old(companies)[c].client)
              && (!(exists c :: Member(c, caller, true) in old(members) && c in old(companies) && !old(companies)[c].deleted) ==>
                    owned == Some(companies[id].client)))
      ensures error == None <==>
        (owner.Some? && owner.value != caller ==> superAdmin) && old(Resolves(caller, parent, named, superAdmin, owned))
      ensures owner.Some? && owner.value != caller && !superAdmin ==> error == Some(OwnerAssignOnly)
    {
      var ownerId := caller;
      if owner.Some? && owner.value != caller {
        if !superAdmin {
          return Some(OwnerAssignOnly);
        }
        ownerId := owner.value;
      }
      var parentClient: Option<ClientId> := None;
      if parent.Some? {
        if !Live(companies, parent.value) {
          return Some(ParentNotFound);
        }
        parentClient := Some(companies[parent.value].client);
      }
      var client;
      client, error := ResolveClientId(caller, parentClient, named, superAdmin, owned);
      if error != None {
        return;
      }
      InsertCompany(id, Company(parent, client.value, ownerId, false));
    }

    method DeleteCompany(id: CompanyId) returns (error: Option<Error>)
      requires Valid()
      modifies this`companies
      ensures Valid() && companies == Apply(old(companies), Delete(id))
      ensures error == if id in old(companies) && !old(companies)[id].deleted then None else Some(CompanyNotFound)
      ensures error == None ==>
        companies == old(companies)[id := Company(old(companies)[id].parent, old(companies)[id].client, old(companies)[id].owner, true)]
      ensures error != None ==> companies == old(companies)
    {
      if !Live(companies, id) {
        return Some(CompanyNotFound);
      }
      ApplyKeeps(companies, depth, Delete(id));
      companies := companies[id := companies[id].(deleted := true)];
      return None;
    }

    method RestoreCompany(id: CompanyId) returns (error: Option<Error>)
      requires Valid()
      modifies this`companies
      ensures Valid() && companies == Apply(old(companies), Restore(id))
      ensures error == if id in old(companies) && old(companies)[id].deleted then None else Some(CompanyNotFound)
      ensures error == None ==>
        companies == old(companies)[id := Company(old(companies)[id].parent, old(companies)[id].client, old(companies)[id].owner, false)]
      ensures error != None ==> companies == old(companies)
    {
      if id !in companies || !companies[id].deleted {
        return Some(CompanyNotFound);
      }
      ApplyKeeps(companies, depth, Restore(id));
      companies := companies[id := companies[id].(deleted := false)];
      return None;
    }

    /** The new owner becomes a member, if it was none. */
    method AssignOwner(id: CompanyId, owner: UserId)
      requires Valid() && Live(companies, id)
      modifies this`companies, this`members
      ensures Valid() && companies == Apply(old(companies), Transfer(id, owner))
      ensures members == old(members) + if Belongs(old(members), id, owner) then {} else {Member(id, owner, false)}
    {
      hide Ranked, ClientsShared, MembersOk;
      ApplyKeeps(companies, depth, Transfer(id, owner));
      var after := companies[id := companies[id].(owner := owner)];
      if exists m :: m in members && m.company == id && m.user == owner {
        SameMembers(companies, after, members, id);
      } else {
        MemberJoins(companies, after, members, id, Member(id, owner, false));
        members := members + {Member(id, owner, false)};
      }
      companies := after;
    }

    method TransferOwner(id: CompanyId, owner: UserId, superAdmin: bool) returns (error: Option<Error>)
      requires Valid()
      modifies this`companies, this`members
      ensures Valid()
      ensures error == if id !in old(companies) || old(companies)[id].deleted then Some(CompanyNotFound)
                       else if owner != old(companies)[id].owner && !superAdmin then Some(OwnerTransferOnly) else None
      ensures companies == if error == None then Apply(old(companies), Transfer(id, owner)) else old(companies)
      ensures error == None ==>
        companies == old(companies)[id := Company(old(companies)[id].parent, old(companies)[id].client, owner, false)]
      ensures members == old(members)
        + if error == None && owner != old(companies)[id].owner && !Belongs(old(members), id, owner) then {Member(id, owner, false)} else {}
    {
      if !Live(companies, id) {
        return Some(CompanyNotFound);
      }
      if owner != companies[id].owner {
        if !superAdmin {
          return Some(OwnerTransferOnly);
        }
        AssignOwner(id, owner);
      } else {
        assert companies[id := companies[id].(owner := owner)] == companies;
      }
      return None;
    }

    /** The recursive query, one parent at a time. */
    method GetAncestors(id: CompanyId) returns (ids: seq<CompanyId>)
      requires Valid()
      ensures ids == if id in companies then Ancestors(companies, depth, id) else []
      ensures id !in companies ==> ids == []
      ensures id in companies ==> ClimbsFrom(companies, id, ids)
    {
      ids := [];
      if id !in companies {
        return;
      }
      hide ClimbsFrom;
      AncestorsClimb(companies, depth, id);
      var at := id;
      while companies[at].parent.Some? && Live(companies, companies[at].parent.value)
        invariant at in companies
        invariant ids + Ancestors(companies, depth, at) == Ancestors(companies, depth, id)
        decreases depth[at]
      {
        var p := companies[at].parent.value;
        assert ids + ([p] + Ancestors(companies, depth, p)) == (ids + [p]) + Ancestors(companies, depth, p);
        ids := ids + [p];
        at := p;
      }
      assert ids + [] == ids;
    }
  
    /** The query for visible companies: each is listed, once. */
    method VisibleCompanyIds(root: CompanyId) returns (ids: seq<CompanyId>)
      requires Valid()
      ensures Unrepeated(ids)
      ensures forall x :: x in ids <==> Visible(companies, root, x)
    {
      if !Live(companies, root) {
        forall x ensures !Visible(companies, root, x) {
          DeletedRootSeesNothing(companies, root, x);
        }
        return [];
      }
      ids := ListDownwards([root], {root}, depth[root]);
    }

    /** The query for descendants: each is listed, once. */
    method GetDescendants(root: CompanyId) returns (ids: seq<CompanyId>)
      requires Valid()
      ensures Unrepeated(ids)
      ensures forall x :: x in ids <==> Descendant(companies, root, x)
    {
      var children := LiveChildren(companies, root);
      var first := ListSet(children);
      ids := ListDownwards(first, children, if root in companies then depth[root] + 1 else 0);
    }

    method ListSet(members: set<CompanyId>) returns (ids: seq<CompanyId>)
      ensures Unrepeated(ids) && forall x :: x in ids <==> x in members
    {
      ids := [];
      var rest := members;
      while rest != {}
        invariant rest <= members && Unrepeated(ids)
        invariant forall x :: x in members <==> x in rest || x in ids
        invariant forall x :: x in rest ==> x !in ids
        decreases rest
      {
        var x :| x in rest;
        ids := ids + [x];
        rest := rest - {x};
      }
    }

    /** A recursive query from where it starts, one listed company at a time: its live
        children are listed after it. */
    method ListDownwards(first: seq<CompanyId>, from: set<CompanyId>, ghost d: nat) returns (ids: seq<CompanyId>)
      requires Valid() && Peers(companies, depth, from, d)
      requires Unrepeated(first) && forall x :: x in first <==> x in from
      ensures Unrepeated(ids)
      ensures forall x :: x in ids <==> Found(companies, from, x)
    {
      ids := first;
      forall k | 0 <= k < |ids| ensures Found(companies, from, ids[k]) {
        assert ids[k] in Level(companies, from, 0);
      }
      var i := 0;
      while i < |ids|
        invariant 0 <= i <= |ids| && first <= ids
        invariant Listing(companies, from, ids, i)
        invariant Complete(companies, ids, i)
        decreases |companies| - i
      {
        ListingFits(companies, ids);
        ids := AppendChildren(from, d, ids, i);
        i := i + 1;
      }
      forall x | Found(companies, from, x) ensures x in ids {
        var n: nat :| x in Level(companies, from, n);
        CompleteCovers(companies, from, ids, n, x);
      }
    }

    /** Lists the live children of the i-th listed company. */
    method AppendChildren(from: set<CompanyId>, ghost d: nat, ids: seq<CompanyId>, i: nat) returns (more: seq<CompanyId>)
      requires Valid() && Peers(companies, depth, from, d)
      requires i < |ids| && Listing(companies, from, ids, i) && Complete(companies, ids, i)
      ensures ids <= more && Listing(companies, from, more, i + 1) && Complete(companies, more, i + 1)
    {
      more := ids;
      var children := LiveChildren(companies, ids[i]);
      ghost var all := children;
      NewChildren(companies, depth, from, d, ids, i);
      while children != {}
        invariant children <= all && ids <= more
        invariant forall x :: x in all && x !in children ==> x in more
        invariant forall x :: x in children ==> x !in more
        invariant Listing(companies, from, more, i + 1)
        decreases children
      {
        var x :| x in children;
        ListOneMore(companies, from, more, i, x);
        more := more + [x];
        children := children - {x};
      }
      CompleteMore(companies, ids, more, i);
    }
  }

  // ----- The list so far -----

  /** The companies listed are found, distinct and, but for the first round, children
      of one of the first i. */
  ghost predicate Listing(t: Companies, from: set<CompanyId>, ids: seq<CompanyId>, i: nat)
    requires i <= |ids|
  {
    && Unrepeated(ids)
    && (forall k :: 0 <= k < |ids| ==> Live(t, ids[k]) && Found(t, from, ids[k]))
    && (forall k :: 0 <= k < |ids| && ids[k] !in from ==> t[ids[k]].parent.Some? && t[ids[k]].parent.value in ids[..i])
  }

  /** The live children of the first i are listed. */
  ghost predicate Complete(t: Companies, ids: seq<CompanyId>, i: nat)
    requires i <= |ids|
  {
    forall x, k :: 0 <= k < i && x in t && Live(t, x) && t[x].parent == Some(ids[k]) ==> x in ids
  }

  lemma CompleteMore(t: Companies, ids: seq<CompanyId>, more: seq<CompanyId>, i: nat)
    requires i < |ids| && ids <= more && Complete(t, ids, i)
    requires forall x :: x in t && Live(t, x) && t[x].parent == Some(ids[i]) ==> x in more
    ensures Complete(t, more, i + 1)
  {
    forall x, k | 0 <= k < i + 1 && x in t && Live(t, x) && t[x].parent == Some(more[k]) ensures x in more {
      if k < i {
        assert t[x].parent == Some(ids[k]);
        var j :| 0 <= j < |ids| && ids[j] == x;
        assert more[j] == x;
      }
    }
  }

  lemma NewChildren(t: Companies, depth: map<CompanyId, nat>, from: set<CompanyId>, d: nat, ids: seq<CompanyId>, i: nat)
    requires Ranked(t, depth) && Peers(t, depth, from, d) && i < |ids| && Listing(t, from, ids, i)
    ensures Listing(t, from, ids, i + 1)
    ensures forall x :: x in LiveChildren(t, ids[i]) ==> x !in ids
  {
    forall x | x in LiveChildren(t, ids[i]) ensures x !in ids {
      var n: nat :| ids[i] in Level(t, from, n);
      LevelDepth(t, depth, from, d, n, ids[i]);
    }
    forall k | 0 <= k < |ids| && ids[k] !in from ensures t[ids[k]].parent.value in ids[..i + 1] {
      var j :| 0 <= j < i && ids[..i][j] == t[ids[k]].parent.value;
      assert ids[..i + 1][j] == ids[j];
    }
  }

  lemma ListOneMore(t: Companies, from: set<CompanyId>, ids: seq<CompanyId>, i: nat, x: CompanyId)
    requires i < |ids| && Listing(t, from, ids, i + 1)
    requires x in LiveChildren(t, ids[i]) && x !in ids
    ensures Listing(t, from, ids + [x], i + 1)
  {
    var n: nat :| ids[i] in Level(t, from, n);
    assert x in Level(t, from, n + 1);
    assert (ids + [x])[..i + 1] == ids[..i + 1];
    assert ids[..i + 1][i] == ids[i];
  }

  lemma ListingFits(t: Companies, ids: seq<CompanyId>)
    requires Unrepeated(ids) && forall k :: 0 <= k < |ids| ==> ids[k] in t
    ensures |ids| <= |t|
  {
    var members := set k | 0 <= k < |ids| :: ids[k];
    MembersSize(ids);
    assert members <= t.Keys;
    assert |t.Keys - members| == |t.Keys| - |members|;
  }

  lemma {:induction false} MembersSize(ids: seq<CompanyId>)
    requires Unrepeated(ids)
    ensures |set k | 0 <= k < |ids| :: ids[k]| == |ids|
  {
    if ids != [] {
      var last := |ids| - 1;
      MembersSize(ids[..last]);
      assert ids[last] !in ids[..last];
      assert (set k | 0 <= k < |ids| :: ids[k]) == (set k | 0 <= k < |ids[..last]| :: ids[..last][k]) + {ids[last]};
    }
  }

  lemma {:induction false} CompleteCovers(t: Companies, from: set<CompanyId>, ids: seq<CompanyId>, n: nat, x: CompanyId)
    requires Complete(t, ids, |ids|) && (forall y :: y in from ==> y in ids) && x in Level(t, from, n)
    ensures x in ids
  {
    if n > 0 {
      var p := t[x].parent.value;
      CompleteCovers(t, from, ids, n - 1, p);
      var k :| 0 <= k < |ids| && ids[k] == p;
    }
  }
}
