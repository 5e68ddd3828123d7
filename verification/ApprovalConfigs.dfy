/** Approval chains as they are configured: which level lists are accepted, and
    what every stored configuration looks like. */
module ApprovalConfigs {
  import opened Common

  newtype int16 = x: int | -0x8000 <= x < 0x8000

  type UserId = nat
  type ConfigId = nat

  type CompanyId = nat

  /** A company, a branch and a feature key: at most one live configuration each. */
  datatype Scope = Scope(company: CompanyId, branch: nat, feature: string)

  const KNOWN_FEATURES: set<string> := {
    "journal_entry", "cash_in", "cash_out", "transfer", "expense", "invoice", "a1_budget", "a2_budget", "a3_budget"
  }

  datatype ChainLevel = ChainLevel(level: int16, approvers: seq<UserId>)

  datatype LevelError = DuplicateLevel | LevelNotSequential

  // ----- Sixteen-bit arithmetic -----

  /** The conversion to a 16-bit integer keeps the low bits. */
  function Wrap(x: int): int16 {
    ((x + 0x8000) % 0x1_0000 - 0x8000) as int16
  }

  lemma WrapOf(n: nat)
    requires n <= 0x1_0000
    ensures n <= 0x7fff ==> Wrap(n) as int == n
    ensures n > 0x7fff ==> Wrap(n) <= 0
  {}

  // ----- What a valid chain is -----

  predicate Distinct(levels: seq<ChainLevel>) {
    forall i, j :: 0 <= i < j < |levels| ==> levels[i].level != levels[j].level
  }

  function LevelSet(levels: seq<ChainLevel>): set<int> {
    set i | 0 <= i < |levels| :: levels[i].level as int
  }

  function Range(low: int, n: nat): (r: set<int>)
    ensures forall k :: k in r <==> low <= k < low + n
    ensures |r| == n
  {
    if n == 0 then {} else Range(low, n - 1) + {low + n - 1}
  }

  function UpTo(n: nat): set<int> {
    Range(1, n)
  }

  /** Every level from 1 to the number of rows, each once, in any order. */
  predicate ValidChain(levels: seq<ChainLevel>) {
    Distinct(levels) && LevelSet(levels) == UpTo(|levels|)
  }

  lemma LevelSetLast(levels: seq<ChainLevel>)
    requires Distinct(levels) && levels != []
    ensures var last := |levels| - 1;
      var below := LevelSet(levels[..last]);
      levels[last].level as int !in below && LevelSet(levels) == below + {levels[last].level as int}
  {
    var last := |levels| - 1;
    forall k | k in LevelSet(levels) ensures k in LevelSet(levels[..last]) + {levels[last].level as int} {
      var i :| 0 <= i < |levels| && levels[i].level as int == k;
      if i < last {
        assert levels[..last][i] == levels[i];
      }
    }
    forall k | k in LevelSet(levels[..last]) ensures k in LevelSet(levels) {
      var i :| 0 <= i < last && levels[..last][i].level as int == k;
      assert levels[i].level as int == k;
    }
  }

  lemma {:induction false} LevelSetSize(levels: seq<ChainLevel>)
    requires Distinct(levels)
    ensures |LevelSet(levels)| == |levels|
  {
    if levels == [] {
      assert LevelSet(levels) == {};
    } else {
      hide LevelSet;
      LevelSetLast(levels);
      LevelSetSize(levels[..|levels| - 1]);
    }
  }

  lemma SameSize(a: set<int>, b: set<int>)
    requires a <= b && |a| == |b|
    ensures a == b
  {
    assert |b - a| == |b| - |a|;
    assert b == a + (b - a);
  }

  /** Distinct rows that have all levels up to their number have no others. */
  lemma AllLevelsUsed(levels: seq<ChainLevel>)
    requires Distinct(levels) && UpTo(|levels|) <= LevelSet(levels)
    ensures LevelSet(levels) == UpTo(|levels|)
  {
    LevelSetSize(levels);
    SameSize(UpTo(|levels|), LevelSet(levels));
  }

  /** When the check accepts. A list of 32767 rows makes the 16-bit counter run past
      its end, and a longer one never starts it. */
  predicate Accepts(levels: seq<ChainLevel>) {
    && Distinct(levels)
    && (if |levels| < 0x7fff then LevelSet(levels) == UpTo(|levels|) else |levels| > 0x7fff)
  }

  /** There are only so many 16-bit levels. */
  lemma DistinctFit(levels: seq<ChainLevel>)
    requires Distinct(levels)
    ensures |levels| <= 0x1_0000
  {
    var all := Range(-0x8000, 0x1_0000);
    LevelSetSize(levels);
    assert LevelSet(levels) <= all;
    assert |all - LevelSet(levels)| == |all| - |LevelSet(levels)|;
  }

  // ----- The check -----

  /** Distinct rows that have all levels up to their number have no room for another:
      at 32767 rows the counter wraps only after all levels were found, and then
      finds no level to go on with. */
  lemma NoOtherLevel(levels: seq<ChainLevel>, k: int)
    requires Distinct(levels) && UpTo(|levels|) <= LevelSet(levels) && !(1 <= k <= |levels|)
    ensures k !in LevelSet(levels)
  {
    AllLevelsUsed(levels);
  }

  method ValidateLevelInputs(levels: seq<ChainLevel>) returns (error: Option<LevelError>)
    ensures error == None <==> Accepts(levels)
    ensures error == Some(DuplicateLevel) <==> !Distinct(levels)
  {
    var duplicate, seen := CollectLevels(levels);
    if duplicate {
      return Some(DuplicateLevel);
    }
    var missing := MissesLevel(levels, seen);
    if missing {
      return Some(LevelNotSequential);
    }
    return None;
  }

  /** The first loop: the levels seen, unless one is seen twice. */
  method CollectLevels(levels: seq<ChainLevel>) returns (duplicate: bool, seen: set<int16>)
    ensures duplicate <==> !Distinct(levels)
    ensures !duplicate ==> forall k: int16 :: k in seen <==> k as int in LevelSet(levels)
  {
    seen := {};
    var n := 0;
    while n < |levels|
      invariant 0 <= n <= |levels|
      invariant forall k: int16 :: k in seen <==> exists i :: 0 <= i < n && levels[i].level == k
      invariant Distinct(levels[..n])
    {
      if levels[n].level in seen {
        return true, seen;
      }
      seen := seen + {levels[n].level};
      n := n + 1;
    }
    assert levels[..n] == levels;
    return false, seen;
  }

  /** The second loop, counting in 16 bits. */
  method MissesLevel(levels: seq<ChainLevel>, seen: set<int16>) returns (missing: bool)
    requires Distinct(levels) && forall k: int16 :: k in seen <==> k as int in LevelSet(levels)
    ensures missing <==> !Accepts(levels)
  {
    DistinctFit(levels);
    WrapOf(|levels|);
    var bound := Wrap(|levels|);
    var i: int16 := 1;
    ghost var steps := 1;
    while i <= bound
      invariant 1 <= steps <= 0x8000 && i as int == if steps <= 0x7fff then steps else -0x8000
      invariant forall k :: 1 <= k < steps ==> k in LevelSet(levels)
      invariant steps > 1 ==> bound as int == |levels| && steps - 1 <= |levels|
      decreases 0x8000 - steps
    {
      if i !in seen {
        return true;
      }
      if steps == 0x8000 {
        NoOtherLevel(levels, -0x8000);
      }
      i := if i == 0x7fff then -0x8000 else i + 1;
      steps := steps + 1;
    }
    if bound > 0 {
      AllLevelsUsed(levels);
    }
    return false;
  }

  /** With levels of at least 1, which the request format demands, the check accepts
      exactly the permutations of 1..N, for N below 32767. */
  lemma AcceptsExactlyChains(levels: seq<ChainLevel>)
    requires forall i :: 0 <= i < |levels| ==> levels[i].level >= 1
    ensures Accepts(levels) <==> ValidChain(levels) && |levels| < 0x7fff
  {
    if Distinct(levels) {
      LevelSetSize(levels);
      assert LevelSet(levels) <= UpTo(0x7fff);
      assert |UpTo(0x7fff) - LevelSet(levels)| == |UpTo(0x7fff)| - |LevelSet(levels)|;
    }
  }

  // ----- Stored configurations -----

  datatype Config = Config(scope: Scope, active: bool, deleted: bool, levels: seq<ChainLevel>)

  type Configs = map<ConfigId, Config>

  datatype ConfigError = UnknownFeatureKey | LevelBelowOne | BadLevels(error: LevelError) | ScopeTaken | ConfigNotFound

  datatype ConfigChange =
    | AddConfig(id: ConfigId, scope: Scope, active: bool, levels: seq<ChainLevel>)
    | EditConfig(id: ConfigId, company: CompanyId, newActive: Option<bool>, newLevels: Option<seq<ChainLevel>>)
    | DropConfig(id: ConfigId, company: CompanyId)

  /** What every stored chain is. */
  predicate StoredChain(levels: seq<ChainLevel>) {
    ValidChain(levels) && |levels| < 0x7fff
  }

  predicate IsLive(configs: Configs, id: ConfigId, company: CompanyId) {
    id in configs && !configs[id].deleted && configs[id].scope.company == company
  }

  predicate Taken(configs: Configs, scope: Scope) {
    exists id :: id in configs && !configs[id].deleted && configs[id].scope == scope
  }

  /** Why a list of levels is refused, if it is: by the request format, or by the check. */
  predicate LevelsRefused(levels: seq<ChainLevel>, error: Option<ConfigError>) {
    if exists i :: 0 <= i < |levels| && levels[i].level < 1 then error == Some(LevelBelowOne)
    else if !Distinct(levels) then error == Some(BadLevels(DuplicateLevel))
    else if !StoredChain(levels) then error == Some(BadLevels(LevelNotSequential))
    else error == None
  }

  /** A row with the given fields replaced and the others as they were. */
  function Updated(row: Config, active: Option<bool>, levels: Option<seq<ChainLevel>>): Config {
    row.(active := if active.Some? then active.value else row.active,
         levels := if levels.Some? then levels.value else row.levels)
  }

  /** Whether a change is carried out. */
  predicate Accepted(configs: Configs, c: ConfigChange) {
    match c
    case AddConfig(_, scope, _, levels) => scope.feature in KNOWN_FEATURES && StoredChain(levels) && !Taken(configs, scope)
    case EditConfig(id, company, _, levels) => IsLive(configs, id, company) && (levels.Some? ==> StoredChain(levels.value))
    case DropConfig(id, company) => IsLive(configs, id, company)
  }

  /** The table after a change; a refused one leaves it alone. */
  function Changed(configs: Configs, c: ConfigChange): Configs {
    if !Accepted(configs, c) then configs
    else
      match c
      case AddConfig(id, scope, active, levels) => configs[id := Config(scope, active, false, levels)]
      case EditConfig(id, _, active, levels) => configs[id := Updated(configs[id], active, levels)]
      case DropConfig(id, _) => configs[id := configs[id].(deleted := true)]
  }

  /** Whether a change is carried out, and what it then leaves: a new configuration needs
      one of the nine features, a valid chain and a scope that no live one has; a live one
      of the company is edited where something is given, or marked deleted. */
  ghost predicate ChangeMeans(configs: Configs, c: ConfigChange, done: bool, configs2: Configs) {
    && (!done ==> configs2 == configs)
    && match c
       case AddConfig(id, scope, active, levels) =>
         && (done <==>
               && scope.feature in {"journal_entry", "cash_in", "cash_out", "transfer", "expense", "invoice", "a1_budget", "a2_budget", "a3_budget"}
               && ValidChain(levels) && |levels| < 0x7fff
               && forall x :: x in configs && configs[x].scope == scope ==> configs[x].deleted)
         && (done ==> configs2 == configs[id := Config(scope, active, false, levels)])
       case EditConfig(id, company, active, levels) =>
         && (done <==>
               && id in configs && !configs[id].deleted && configs[id].scope.company == company
               && (levels.Some? ==> ValidChain(levels.value) && |levels.value| < 0x7fff))
         && (done ==> configs2 == configs[id := Config(configs[id].scope, if active.Some? then active.value else configs[id].active, false,
                                                       if levels.Some? then levels.value else configs[id].levels)])
       case DropConfig(id, company) =>
         && (done <==> id in configs && !configs[id].deleted && configs[id].scope.company == company)
         && (done ==> configs2 == configs[id := Config(configs[id].scope, configs[id].active, true, configs[id].levels)])
  }

  lemma ChangeMeant(configs: Configs, c: ConfigChange)
    ensures ChangeMeans(configs, c, Accepted(configs, c), Changed(configs, c))
  {
    hide ValidChain;
  }

  /** Every chain is a permutation of 1..N, and a scope has one live configuration
      at most. */
  ghost predicate ConfigsOk(configs: Configs) {
    && (forall id :: id in configs ==> StoredChain(configs[id].levels) && configs[id].scope.feature in KNOWN_FEATURES)
    && (forall a, b ::
          a in configs && b in configs && !configs[a].deleted && !configs[b].deleted && configs[a].scope == configs[b].scope ==> a == b)
  }

  /** Every change keeps the table so; a new configuration has a new id. */
  lemma ChangeKeeps(configs: Configs, c: ConfigChange)
    requires ConfigsOk(configs) && (c.AddConfig? ==> c.id !in configs)
    ensures ConfigsOk(Changed(configs, c))
  {
    var configs2 := Changed(configs, c);
    forall a, b | a in configs2 && b in configs2 && !configs2[a].deleted && !configs2[b].deleted && configs2[a].scope == configs2[b].scope
      ensures a == b
    {
      if a != c.id && b != c.id {
        assert configs2[a] == configs[a] && configs2[b] == configs[b];
      }
    }
  }

  predicate IsActive(configs: Configs, id: ConfigId, scope: Scope) {
    id in configs && configs[id].scope == scope && configs[id].active && !configs[id].deleted
  }

  /** The chain a submission snapshots: that of the scope's active configuration, or
      none, and then nobody needs to approve. */
  ghost function ActiveChain(configs: Configs, scope: Scope): seq<ChainLevel> {
    if id :| IsActive(configs, id, scope) then configs[id].levels else []
  }

  /** The chain a scope asks for: that of a live, active configuration of the scope, or
      none when it has no such configuration. */
  ghost predicate IsChainOf(configs: Configs, scope: Scope, chain: seq<ChainLevel>) {
    if exists id :: id in configs && configs[id].scope == scope && configs[id].active && !configs[id].deleted
    then exists id :: id in configs && configs[id].scope == scope && configs[id].active && !configs[id].deleted && configs[id].levels == chain
    else chain == []
  }

  lemma ActiveChainStored(configs: Configs, scope: Scope)
    requires ConfigsOk(configs)
    ensures StoredChain(ActiveChain(configs, scope))
    ensures forall id :: IsActive(configs, id, scope) ==> ActiveChain(configs, scope) == configs[id].levels
  {
    assert LevelSet([]) == UpTo(0);
  }

  class ConfigStore {
    var configs: Configs

    ghost predicate Valid()
      reads this
    {
      ConfigsOk(configs)
    }

    constructor ()
      ensures Valid() && configs == map[]
    {
      configs := map[];
    }

    /** The request format first, then the level check. */
    static method CheckLevels(levels: seq<ChainLevel>) returns (error: Option<ConfigError>)
      ensures LevelsRefused(levels, error)
      ensures error == None <==> StoredChain(levels)
    {
      var n := 0;
      while n < |levels|
        invariant 0 <= n <= |levels|
        invariant forall i :: 0 <= i < n ==> levels[i].level >= 1
      {
        if levels[n].level < 1 {
          assert levels[n].level as int in LevelSet(levels);
          return Some(LevelBelowOne);
        }
        n := n + 1;
      }
      var checked := ValidateLevelInputs(levels);
      AcceptsExactlyChains(levels);
      assert checked.Some? ==> checked.value.DuplicateLevel? || checked.value.LevelNotSequential?;
      error := if checked.Some? then Some(BadLevels(checked.value)) else None;
    }

    /** The index on live scopes refuses a second configuration. */
    method Create(id: ConfigId, scope: Scope, active: bool, levels: seq<ChainLevel>) returns (error: Option<ConfigError>)
      requires Valid() && id !in configs
      modifies this
      ensures Valid() && configs == Changed(old(configs), AddConfig(id, scope, active, levels))
      ensures ChangeMeans(old(configs), AddConfig(id, scope, active, levels), error == None, configs)
      ensures error == Some(UnknownFeatureKey) <==> scope.feature !in KNOWN_FEATURES
      ensures error == Some(ScopeTaken) <==> scope.feature in KNOWN_FEATURES && StoredChain(levels) && Taken(old(configs), scope)
      ensures error.Some? && error.value !in {UnknownFeatureKey, ScopeTaken} ==> LevelsRefused(levels, error)
    {
      hide ChangeMeans;
      ChangeKeeps(configs, AddConfig(id, scope, active, levels));
      ChangeMeant(configs, AddConfig(id, scope, active, levels));
      if scope.feature !in KNOWN_FEATURES {
        return Some(UnknownFeatureKey);
      }
      error := CheckLevels(levels);
      if error == None {
        if exists c :: c in configs && !configs[c].deleted && configs[c].scope == scope {
          return Some(ScopeTaken);
        }
        configs := configs[id := Config(scope, active, false, levels)];
      }
    }

    method Update(id: ConfigId, company: CompanyId, active: Option<bool>, levels: Option<seq<ChainLevel>>) returns (error: Option<ConfigError>)
      requires Valid()
      modifies this
      ensures Valid() && configs == Changed(old(configs), EditConfig(id, company, active, levels))
      ensures ChangeMeans(old(configs), EditConfig(id, company, active, levels), error == None, configs)
      ensures error == Some(ConfigNotFound) <==> !IsLive(old(configs), id, company)
      ensures error.Some? && error != Some(ConfigNotFound) ==> levels.Some? && LevelsRefused(levels.value, error)
    {
      hide ChangeMeans;
      ChangeKeeps(configs, EditConfig(id, company, active, levels));
      ChangeMeant(configs, EditConfig(id, company, active, levels));
      if !IsLive(configs, id, company) {
        return Some(ConfigNotFound);
      }
      var row := configs[id];
      if active.Some? {
        row := row.(active := active.value);
      }
      if levels.Some? {
        error := CheckLevels(levels.value);
        if error != None {
          return;
        }
        row := row.(levels := levels.value);
      }
      assert row == Updated(configs[id], active, levels);
      configs := configs[id := row];
      return None;
    }

    method Delete(id: ConfigId, company: CompanyId) returns (error: Option<ConfigError>)
      requires Valid()
      modifies this
      ensures Valid() && configs == Changed(old(configs), DropConfig(id, company))
      ensures ChangeMeans(old(configs), DropConfig(id, company), error == None, configs)
      ensures error == None || error == Some(ConfigNotFound)
    {
      hide ChangeMeans;
      ChangeKeeps(configs, DropConfig(id, company));
      ChangeMeant(configs, DropConfig(id, company));
      if !IsLive(configs, id, company) {
        return Some(ConfigNotFound);
      }
      configs := configs[id := configs[id].(deleted := true)];
      return None;
    }

    /** The active configuration of a scope, if there is one. */
    method FindActive(scope: Scope) returns (levels: Option<seq<ChainLevel>>)
      requires Valid()
      ensures levels.Some? <==> exists id :: id in configs && configs[id].scope == scope && configs[id].active && !configs[id].deleted
      ensures forall id :: id in configs && configs[id].scope == scope && configs[id].active && !configs[id].deleted ==>
        levels == Some(configs[id].levels)
      ensures (if levels.Some? then levels.value else []) == ActiveChain(configs, scope)
    {
      ActiveChainStored(configs, scope);
      if id :| id in configs && IsActive(configs, id, scope) {
        levels := Some(configs[id].levels);
      } else {
        levels := None;
      }
    }
  }
}
