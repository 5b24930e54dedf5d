/** Splitting one global concurrency over named agents. */
module Shards {
  import opened Basics
  import opened Ordering
  import opened Protocol

  datatype ShardError =
    | EmptyAgents
    | DuplicateAgent(name: string)
    | InvalidAgentName(name: string)
    | InsufficientConcurrency(global: u32, agents: nat)
    | TooManyAgents

  predicate PortableChar(c: char) {
    ('a' <= c <= 'z') || ('A' <= c <= 'Z') || ('0' <= c <= '9') || c == '-' || c == '_' || c == '.'
  }

  /** Only ASCII passes, so characters and bytes count the same. */
  predicate PortableName(name: string) {
    name != "" && |name| <= 64 && (forall i :: 0 <= i < |name| ==> PortableChar(name[i])) && name != "." && name != ".."
  }

  /** The first name, in inventory order, that is not portable or repeats an earlier one. */
  function NameProblem(names: seq<string>): Option<ShardError> {
    if names == [] then None
    else
      var before, last := names[..|names| - 1], names[|names| - 1];
      var earlier := NameProblem(before);
      if earlier.Some? then earlier
      else if !PortableName(last) then Some(InvalidAgentName(last))
      else if last in before then Some(DuplicateAgent(last))
      else None
  }

  /** The share of the agent at sorted position `index`. */
  function Share(global: nat, count: nat, index: nat): nat
    requires 0 < count
  {
    global / count + if index < global % count then 1 else 0
  }

  lemma {:induction false} MulStep(b: nat, k: nat)
    requires k > 0
    ensures b * k == b * (k - 1) + b
  {
  }

  lemma {:induction false} MulAtLeast(b: nat, k: nat, m: nat)
    requires m <= k
    ensures b * m <= b * k
  {
  }

  lemma {:induction false} DivisionSplits(g: nat, n: nat)
    requires n > 0
    ensures g == g / n * n + g % n && g % n < n
  {
  }

  lemma {:induction false} ShareBounds(global: nat, count: nat, index: nat)
    requires 0 < count <= global && index < count
    ensures 1 <= Share(global, count, index) <= global
  {
    DivisionSplits(global, count);
    QuotientBounds(global, count, global / count, global % count);
  }

  lemma {:induction false} QuotientBounds(g: nat, n: nat, q: nat, r: nat)
    requires 0 < n <= g && g == q * n + r && r < n
    ensures 1 <= q <= g && (r > 0 ==> q + 1 <= g)
  {
    MulAtLeast(q, n, 1);
  }

  function ShardAt(global: u32, names: seq<string>, i: nat): AgentShard
    requires i < |names| <= global
  {
    ShareBounds(global, |names|, i);
    AgentShard(names[i], i, |names|, Share(global, |names|, i))
  }

  /** One shard per name of an ascending list. */
  function Assign(global: u32, names: seq<string>): (shards: seq<AgentShard>)
    requires |names| <= global
    ensures |shards| == |names|
    ensures forall i :: 0 <= i < |names| ==> shards[i] == ShardAt(global, names, i)
  {
    seq(|names|, i requires 0 <= i < |names| => ShardAt(global, names, i))
  }

  ghost predicate Plannable(global: u32, names: seq<string>) {
    0 < |names| <= global && NameProblem(names).None?
  }

  method PlanShards(global: u32, agentNames: seq<string>) returns (r: Result<seq<AgentShard>, ShardError>)
    ensures r.Ok? <==> Plannable(global, agentNames)
    ensures r.Ok? ==> |NameSet(agentNames)| == |agentNames| && r.value == Assign(global, Sorted(NameSet(agentNames)))
    ensures agentNames == [] ==> r == Err(EmptyAgents)
    ensures |agentNames| >= U32_LIMIT ==> r == Err(TooManyAgents)
    ensures global < |agentNames| < U32_LIMIT ==> r == Err(InsufficientConcurrency(global, |agentNames|))
    ensures 0 < |agentNames| <= global && NameProblem(agentNames).Some? ==> r == Err(NameProblem(agentNames).value)
  {
    hide NameProblem, Sorted, ShardAt;
    if agentNames == [] {
      return Err(EmptyAgents);
    }
    if |agentNames| >= U32_LIMIT {
      return Err(TooManyAgents);
    }
    var agentCount: u32 := |agentNames|;
    if global < agentCount {
      return Err(InsufficientConcurrency(global, |agentNames|));
    }
    var names := DistinctNames(agentNames);
    if names.Err? {
      return Err(names.error);
    }
    var shards := AssignShares(global, Sorted(names.value));
    r := Ok(shards);
  }

  lemma {:induction false} OneMoreName(names: seq<string>, i: nat)
    requires i < |names| && NameProblem(names[..i]).None?
    ensures NameProblem(names[..i + 1]) == (
      if !PortableName(names[i]) then Some(InvalidAgentName(names[i]))
      else if names[i] in NameSet(names[..i]) then Some(DuplicateAgent(names[i]))
      else None)
    ensures NameSet(names[..i + 1]) == NameSet(names[..i]) + {names[i]}
  {
    hide PortableName;
    assert names[..i + 1] == names[..i] + [names[i]];
    assert names[..i + 1][..i] == names[..i];
  }

  /** The validating pass: a portable name that is not in the set yet joins it. */
  method DistinctNames(agentNames: seq<string>) returns (r: Result<set<string>, ShardError>)
    ensures r.Ok? <==> NameProblem(agentNames).None?
    ensures r.Ok? ==> r.value == NameSet(agentNames) && |r.value| == |agentNames|
    ensures r.Err? ==> NameProblem(agentNames) == Some(r.error)
  {
    var names: set<string> := {};
    assert NameSet(agentNames[..0]) == {} && NameProblem(agentNames[..0]).None?;
    hide PortableName, NameProblem, NameSet;
    for i := 0 to |agentNames|
      invariant names == NameSet(agentNames[..i]) && |names| == i
      invariant NameProblem(agentNames[..i]).None?
    {
      var name := agentNames[i];
      OneMoreName(agentNames, i);
      if !PortableName(name) || name in names {
        ProblemStays(agentNames, i + 1);
        return Err(if !PortableName(name) then InvalidAgentName(name) else DuplicateAgent(name));
      }
      names := names + {name};
    }
    assert agentNames[..|agentNames|] == agentNames;
    r := Ok(names);
  }

  method AssignShares(global: u32, names: seq<string>) returns (shards: seq<AgentShard>)
    requires 0 < |names| <= global
    ensures shards == Assign(global, names)
  {
    hide Share;
    var agentCount: u32 := |names|;
    var base := global / agentCount;
    var remainder := global % agentCount;
    shards := [];
    for i := 0 to |names|
      invariant |shards| == i
      invariant forall k :: 0 <= k < i ==> shards[k] == ShardAt(global, names, k)
    {
      ShareBounds(global, agentCount, i);
      assert Share(global, agentCount, i) == base + if i < remainder then 1 else 0 by {
        ShareIs(global, agentCount, i);
      }
      shards := shards + [AgentShard(names[i], i, agentCount, base + if i < remainder then 1 else 0)];
    }
  }

  lemma {:induction false} ShareIs(global: nat, count: nat, index: nat)
    requires 0 < count
    ensures Share(global, count, index) == global / count + if index < global % count then 1 else 0
  {
  }

  lemma {:induction false} ProblemStays(names: seq<string>, k: nat)
    requires k <= |names| && NameProblem(names[..k]).Some?
    ensures NameProblem(names) == NameProblem(names[..k])
  {
    if k == |names| {
      assert names[..k] == names;
    } else {
      var shorter := names[..|names| - 1];
      assert shorter[..k] == names[..k];
      ProblemStays(shorter, k);
    }
  }

  /** An inventory is usable exactly when every name is portable and no name repeats. */
  lemma {:induction false} NoProblemIff(names: seq<string>)
    ensures NameProblem(names).None? <==>
      (forall n :: n in names ==> PortableName(n)) && |NameSet(names)| == |names|
    ensures |NameSet(names)| <= |names|
  {
    if names == [] {
      assert NameSet(names) == {};
    } else {
      var before, last := names[..|names| - 1], names[|names| - 1];
      assert names == before + [last];
      NoProblemIff(before);
      assert NameSet(names) == NameSet(before) + {last};
      assert last in NameSet(before) <==> last in before;
    }
  }

  function Concurrency(shards: seq<AgentShard>): nat {
    if shards == [] then 0 else Concurrency(shards[..|shards| - 1]) + shards[|shards| - 1].concurrency
  }

  /** Equal shares `b` with one more for the first `r`. */
  lemma {:induction false} EvenShares(shards: seq<AgentShard>, b: nat, r: nat)
    requires forall i :: 0 <= i < |shards| ==> shards[i].concurrency == b + if i < r then 1 else 0
    ensures Concurrency(shards) == b * |shards| + if |shards| < r then |shards| else r
  {
    if shards != [] {
      var shorter := shards[..|shards| - 1];
      assert forall i :: 0 <= i < |shorter| ==> shorter[i] == shards[i];
      EvenShares(shorter, b, r);
      MulStep(b, |shards|);
    }
  }

  /** Conservation: the shares add up to the global concurrency, none is empty and any two are
      within one of each other, the earlier name getting the larger. */
  lemma {:induction false} SharesConserve(global: u32, names: seq<string>)
    requires 0 < |names| <= global
    ensures Concurrency(Assign(global, names)) == global
    ensures forall i :: 0 <= i < |names| ==> Assign(global, names)[i].concurrency >= 1
    ensures forall i, j :: 0 <= i <= j < |names| ==>
      Assign(global, names)[j].concurrency <= Assign(global, names)[i].concurrency <= Assign(global, names)[j].concurrency + 1
  {
    hide Share;
    var all := Assign(global, names);
    forall i | 0 <= i < |names| ensures all[i].concurrency == global / |names| + if i < global % |names| then 1 else 0 {
      ShareIs(global, |names|, i);
    }
    forall i | 0 <= i < |names| ensures all[i].concurrency >= 1 {
      ShareBounds(global, |names|, i);
    }
    EvenShares(all, global / |names|, global % |names|);
    DivisionSplits(global, |names|);
  }

  /** One to sixty-four letters, digits, hyphens, underscores and dots, but not a lone dot or two. */
  predicate Portable(name: string) {
    && 1 <= |name| <= 64 && name != "." && name != ".."
    && forall c :: c in name ==>
         48 <= c as int <= 57 || 65 <= c as int <= 90 || 97 <= c as int <= 122 || c as int in {45, 46, 95}
  }

  lemma {:induction false} PortableIs(name: string)
    ensures PortableName(name) <==> Portable(name)
  {
    if Portable(name) {
      forall i | 0 <= i < |name| ensures PortableChar(name[i]) {
        assert name[i] in name;
      }
    }
  }

  /** An inventory is refused with its first name that is not portable or was there before, portability
      first. */
  lemma {:induction false} RefusedName(names: seq<string>, i: nat)
    requires i < |names| && forall j :: 0 <= j < i ==> Portable(names[j]) && names[j] !in names[..j]
    requires !Portable(names[i]) || names[i] in names[..i]
    ensures NameProblem(names) == Some(if !Portable(names[i]) then InvalidAgentName(names[i]) else DuplicateAgent(names[i]))
  {
    NoneBefore(names, i);
    PortableIs(names[i]);
    hide PortableName, Portable;
    assert names[..i + 1][..i] == names[..i];
    ProblemStays(names, i + 1);
  }

  lemma {:induction false} NoneBefore(names: seq<string>, i: nat)
    requires i <= |names| && forall j :: 0 <= j < i ==> Portable(names[j]) && names[j] !in names[..j]
    ensures NameProblem(names[..i]) == None
  {
    if i > 0 {
      NoneBefore(names, i - 1);
      PortableIs(names[i - 1]);
      hide PortableName, Portable;
      assert names[..i][..i - 1] == names[..i - 1];
    }
  }

  /** The plan depends only on the set of names, not on the order they are configured in. */
  lemma {:induction false} PlanIgnoresOrder(global: u32, names: seq<string>, others: seq<string>)
    requires |names| == |others| && NameSet(names) == NameSet(others)
    ensures Plannable(global, names) <==> Plannable(global, others)
    ensures Plannable(global, names) ==> Sorted(NameSet(names)) == Sorted(NameSet(others))
  {
    NoProblemIff(names);
    NoProblemIff(others);
    forall n ensures n in names <==> n in others {
      assert n in names <==> n in NameSet(names);
      assert n in others <==> n in NameSet(others);
    }
  }

  /** Agents of one plan never share a random seed, and every seed fits 64 bits. */
  lemma {:induction false} SeedsDiffer(plan: WorkloadPlan, global: u32, names: seq<string>, i: nat, j: nat)
    requires |names| <= global && i < |names| && j < |names| && i != j
    ensures plan.ForShard(Assign(global, names)[i]).seed != plan.ForShard(Assign(global, names)[j]).seed
    ensures plan.ForShard(Assign(global, names)[i]).seed < U64_LIMIT
  {
    var a, b := Assign(global, names)[i], Assign(global, names)[j];
    if plan.ForShard(a).seed == plan.ForShard(b).seed {
      XorCancels(plan.seed, a.index, b.index);
    }
    SeedFits(plan.seed, a.index);
  }

  lemma {:induction false} SeedFits(seed: u64, index: u32)
    ensures Xor(seed, index) < U64_LIMIT
  {
    assert Pow2(8) == 256;
    assert Pow2(16) == 256 * Pow2(8);
    assert Pow2(24) == 256 * Pow2(16);
    assert Pow2(32) == 256 * Pow2(24);
    assert Pow2(40) == 256 * Pow2(32);
    assert Pow2(48) == 256 * Pow2(40);
    assert Pow2(56) == 256 * Pow2(48);
    assert Pow2(64) == 256 * Pow2(56);
    XorFits(seed, index, 64);
  }

  // ----- the prepare frames the controller builds from a plan

  function PrepareFor(jobId: string, digest: string, target: string, plan: WorkloadPlan, shard: AgentShard,
        beat: u64): PrepareFrame {
    PrepareFrame(jobId, digest, target, plan.ForShard(shard), shard, beat)
  }

  function Prepares(jobId: string, digest: string, target: string, plan: WorkloadPlan, shards: seq<AgentShard>,
        beat: u64): (ps: seq<PrepareFrame>)
    ensures |ps| == |shards|
    ensures forall i :: 0 <= i < |shards| ==> ps[i] == PrepareFor(jobId, digest, target, plan, shards[i], beat)
  {
    seq(|shards|, i requires 0 <= i < |shards| => PrepareFor(jobId, digest, target, plan, shards[i], beat))
  }
}
