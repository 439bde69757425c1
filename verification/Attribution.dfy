/**
 The pilot's policy (src/pilot/policy.js): signals grouped by actor, the capped target, exact Shapley attribution
 and rewards. Numbers are exact: basis points are integers, returns and contributions are reals.
 */
module Attribution {
  import opened Prelude
  import opened Division
  import opened Masks
  import opened Shapley

  const ASSETS := 4
  const BPS := 10000
  const ACTOR_CAP := 1000
  const ASSET_CAP := 2500
  const MIN_ACTORS := 3
  const MAX_ACTORS := 8

  type Vector = v: seq<int> | |v| == ASSETS witness [0, 0, 0, 0]

  datatype Actor = Actor(
    id: string, payout: string, subject: string, approved: bool, evidence: string, keys: seq<string>)
  datatype Signal = Signal(actorId: string, key: string, vector: seq<int>)
  datatype Group = Group(id: string, submitted: bool, vector: Vector)
  datatype Contributed = Contributed(actorId: string, submitted: bool, contribution: real)

  datatype PolicyError =
    | TooManyActors | NotUniqueId | NotUniquePayout | NotUniqueSubject | UnapprovedActor | SharedKey
    | UnapprovedKey | BadVector | CapExceeded | TooFewActors | InvalidReturns | NegativePool

  // ---------------------------------------------------------------------------------------------
  // validateActors

  /** `toLowerCase` on the letters A to Z. */
  function Lower(s: string): string {
    seq(|s|, i requires 0 <= i < |s| => if 'A' <= s[i] <= 'Z' then s[i] - 'A' + 'a' else s[i])
  }

  predicate NoRepeats(values: seq<string>) {
    forall i, j :: 0 <= i < j < |values| ==> values[i] != values[j]
  }

  predicate UniqueNames(names: seq<string>) {
    "" !in names && NoRepeats(names)
  }

  datatype Field = Id | Payout | Subject

  function FieldOf(a: Actor, field: Field): string {
    match field
    case Id => a.id
    case Payout => a.payout
    case Subject => a.subject
  }

  function Names(actors: seq<Actor>, field: Field): seq<string> {
    seq(|actors|, i requires 0 <= i < |actors| => Lower(FieldOf(actors[i], field)))
  }

  predicate Admitted(a: Actor) {
    a.approved && a.evidence != "" && a.keys != []
  }

  function AllKeys(actors: seq<Actor>): seq<string> {
    if actors == [] then [] else AllKeys(actors[..|actors| - 1]) + actors[|actors| - 1].keys
  }

  /** The first fault of the actors, in the order of the checks. */
  function CheckActors(actors: seq<Actor>): Outcome<PolicyError> {
    if |actors| > MAX_ACTORS then Fail(TooManyActors)
    else if !UniqueNames(Names(actors, Id)) then Fail(NotUniqueId)
    else if !UniqueNames(Names(actors, Payout)) then Fail(NotUniquePayout)
    else if !UniqueNames(Names(actors, Subject)) then Fail(NotUniqueSubject)
    else if exists i :: 0 <= i < |actors| && !Admitted(actors[i]) then Fail(UnapprovedActor)
    else if !NoRepeats(AllKeys(actors)) then Fail(SharedKey)
    else Pass
  }

  // ---------------------------------------------------------------------------------------------
  // groupSignals

  /** The actor a key is approved for; a later mention would win. */
  function KnownActor(actors: seq<Actor>, key: string): Option<string> {
    if actors == [] then None
    else
      var last := actors[|actors| - 1];
      if key in last.keys then Some(last.id) else KnownActor(actors[..|actors| - 1], key)
  }

  predicate ValidVector(v: seq<int>) {
    |v| == ASSETS && forall k :: 0 <= k < ASSETS ==> -BPS <= v[k] <= BPS
  }

  function KeysOf(signals: seq<Signal>): seq<string> {
    seq(|signals|, i requires 0 <= i < |signals| => signals[i].key)
  }

  /** The first fault of the signals, in order. */
  function Check(actors: seq<Actor>, signals: seq<Signal>): Outcome<PolicyError> {
    if signals == [] then Pass
    else
      var front, last := signals[..|signals| - 1], signals[|signals| - 1];
      match Check(actors, front)
      case Fail(e) => Fail(e)
      case Pass =>
        if KnownActor(actors, last.key) != Some(last.actorId) || last.key in KeysOf(front) then Fail(UnapprovedKey)
        else if !ValidVector(last.vector) then Fail(BadVector)
        else Pass
  }

  /** An actor's different vectors, in the order they first came in. */
  function Unique(signals: seq<Signal>, id: string): (u: seq<Vector>) {
    if signals == [] then []
    else
      var u, last := Unique(signals[..|signals| - 1], id), signals[|signals| - 1];
      if last.actorId == id && |last.vector| == ASSETS && last.vector !in u then u + [last.vector] else u
  }

  function SumAt(u: seq<Vector>, k: nat): int
    requires k < ASSETS
  {
    if u == [] then 0 else SumAt(u[..|u| - 1], k) + u[|u| - 1][k]
  }

  function Mean(u: seq<Vector>, k: nat): int
    requires k < ASSETS
  {
    if u == [] then 0 else Quot(SumAt(u, k), |u|)
  }

  function GroupOf(signals: seq<Signal>, id: string): Group {
    var u := Unique(signals, id);
    Group(id, |u| > 0, [Mean(u, 0), Mean(u, 1), Mean(u, 2), Mean(u, 3)])
  }

  function Grouped(actors: seq<Actor>, signals: seq<Signal>): Result<seq<Group>, PolicyError> {
    match CheckActors(actors)
    case Fail(e) => Err(e)
    case Pass =>
      match Check(actors, signals)
      case Fail(e) => Err(e)
      case Pass => Ok(seq(|actors|, i requires 0 <= i < |actors| => GroupOf(signals, actors[i].id)))
  }

  // ---------------------------------------------------------------------------------------------
  // target and attributeActors

  predicate WeightsCapped(weights: map<string, int>) {
    forall id :: id in weights ==> 0 <= weights[id] <= ACTOR_CAP
  }

  function WeightOf(weights: map<string, int>, id: string): int {
    if id in weights then weights[id] else 0
  }

  /** `groups.filter((_, i) => mask & (1 << i))` */
  function Members(groups: seq<Group>, mask: nat): seq<Group> {
    if groups == [] then []
    else
      var n := |groups| - 1;
      Members(groups[..n], mask) + if Bit(mask, n) then [groups[n]] else []
  }

  /** The weighted vectors of a coalition at one asset, times 10000. */
  function Pull(members: seq<Group>, weights: map<string, int>, k: nat): int
    requires k < ASSETS
  {
    if members == [] then 0
    else
      var last := members[|members| - 1];
      Pull(members[..|members| - 1], weights, k) + WeightOf(weights, last.id) * last.vector[k]
  }

  function Clamp(x: int): int {
    if x < -ASSET_CAP then -ASSET_CAP else if x > ASSET_CAP then ASSET_CAP else x
  }

  function TargetAt(members: seq<Group>, weights: map<string, int>, k: nat): int
    requires k < ASSETS
  {
    Clamp(Quot(Pull(members, weights, k), BPS))
  }

  function Target(members: seq<Group>, weights: map<string, int>): Vector {
    [TargetAt(members, weights, 0), TargetAt(members, weights, 1), TargetAt(members, weights, 2),
     TargetAt(members, weights, 3)]
  }

  function WorthAt(bps: int, r: real, fee: real): real {
    bps as real * r - Abs(bps) as real * 2.0 * fee / BPS as real
  }

  /** What a target earns under the assets' returns (`moves`), after the cost of entering and leaving it. */
  function Worth(t: Vector, moves: seq<real>, fee: real): real
    requires |moves| == ASSETS
  {
    WorthAt(t[0], moves[0], fee) + WorthAt(t[1], moves[1], fee) + WorthAt(t[2], moves[2], fee)
    + WorthAt(t[3], moves[3], fee)
  }

  /** The value of a coalition. */
  function ValueOf(groups: seq<Group>, weights: map<string, int>, moves: seq<real>, fee: real): nat -> real
    requires |moves| == ASSETS
  {
    (mask: nat) => Worth(Target(Members(groups, mask), weights), moves, fee)
  }

  function Submitted(groups: seq<Group>): nat {
    if groups == [] then 0
    else Submitted(groups[..|groups| - 1]) + if groups[|groups| - 1].submitted then 1 else 0
  }

  function Aggregate(groups: seq<Group>, weights: map<string, int>): Result<Vector, PolicyError> {
    if Submitted(groups) < MIN_ACTORS then Err(TooFewActors)
    else if !WeightsCapped(weights) then Err(CapExceeded)
    else Ok(Target(groups, weights))
  }

  predicate ValidReturns(moves: seq<real>) {
    |moves| == ASSETS && forall k :: 0 <= k < ASSETS ==> moves[k] >= -1.0
  }

  function Attribute(groups: seq<Group>, weights: map<string, int>, moves: seq<real>, fee: real)
    : Result<seq<Contributed>, PolicyError>
  {
    if !ValidReturns(moves) then Err(InvalidReturns)
    else
      match Aggregate(groups, weights)
      case Err(e) => Err(e)
      case Ok(_) =>
        var v := ValueOf(groups, weights, moves, fee);
        Ok(seq(|groups|, i requires 0 <= i < |groups| =>
             Contributed(groups[i].id, groups[i].submitted, Contribution(v, |groups|, i))))
  }

  // ---------------------------------------------------------------------------------------------
  // allocateRewards

  /** `Math.round(x)`, kept at zero from below. */
  function Positive(contribution: real): nat {
    var rounded := (contribution * 100000000.0 + 0.5).Floor;
    if rounded < 0 then 0 else rounded
  }

  function SumOf(parts: seq<nat>): nat {
    if parts == [] then 0 else SumOf(parts[..|parts| - 1]) + parts[|parts| - 1]
  }

  function Positives(contributions: seq<Contributed>): (parts: seq<nat>)
    ensures |parts| == |contributions|
  {
    seq(|contributions|, i requires 0 <= i < |contributions| => Positive(contributions[i].contribution))
  }

  function Rewards(parts: seq<nat>, total: nat, pool: nat): (rewards: seq<nat>)
    ensures |rewards| == |parts|
  {
    seq(|parts|, i requires 0 <= i < |parts| => if total == 0 then 0 else pool * parts[i] / total)
  }

  function Allocated(contributions: seq<Contributed>, pool: int): Result<seq<nat>, PolicyError> {
    if pool < 0 then Err(NegativePool)
    else Ok(Rewards(Positives(contributions), SumOf(Positives(contributions)), pool))
  }

  // ---------------------------------------------------------------------------------------------
  // What is attributed

  /** The weighted vectors of the actors of a coalition at one asset, times 10000, from actor `i` on. */
  function Influence(groups: seq<Group>, weights: map<string, int>, mask: nat, k: nat, i: nat): int
    requires k < ASSETS && i <= |groups|
    decreases |groups| - i
  {
    if i == |groups| then 0
    else
      (if Bit(mask, i) then WeightOf(weights, groups[i].id) * groups[i].vector[k] else 0)
      + Influence(groups, weights, mask, k, i + 1)
  }

  /** A target is the weighted sum divided by 10000, rounded toward zero, or the bound it is beyond. */
  ghost predicate IsTarget(t: int, sum: int) {
    && -2500 <= t <= 2500
    && (t > 0 ==> sum > 0) && (t < 0 ==> sum < 0)
    && (-25_000_000 <= sum <= 25_000_000 ==> 10000 * Abs(t) <= Abs(sum) < 10000 * (Abs(t) + 1))
    && (sum > 25_000_000 ==> t == 2500)
    && (sum < -25_000_000 ==> t == -2500)
  }

  ghost predicate IsTargetOf(t: Vector, groups: seq<Group>, weights: map<string, int>, mask: nat) {
    forall k :: 0 <= k < ASSETS ==> IsTarget(t[k], Influence(groups, weights, mask, k, 0))
  }

  /** A position times its return, less twice the fee on its size. */
  function EarnedAt(bps: int, r: real, fee: real): real {
    bps as real * r - 2.0 * fee * Abs(bps) as real / 10000.0
  }

  /** What a target earns, from asset `k` on. */
  function Earned(t: Vector, moves: seq<real>, fee: real, k: nat): real
    requires |moves| == ASSETS && k <= ASSETS
    decreases ASSETS - k
  {
    if k == ASSETS then 0.0
    else
      EarnedAt(t[k], moves[k], fee) + Earned(t, moves, fee, k + 1)
  }

  ghost predicate IsValue(groups: seq<Group>, weights: map<string, int>, moves: seq<real>, fee: real, mask: nat, x: real)
    requires |moves| == ASSETS
  {
    exists t: Vector :: IsTargetOf(t, groups, weights, mask) && x == Earned(t, moves, fee, 0)
  }

  ghost predicate AreValues(groups: seq<Group>, weights: map<string, int>, moves: seq<real>, fee: real, v: nat -> real)
    requires |moves| == ASSETS
  {
    forall mask: nat :: IsValue(groups, weights, moves, fee, mask, v(mask))
  }

  /** The rows of an attribution: the actors in order, each with its Shapley value of the capped portfolios. */
  ghost predicate IsAttribution(
      groups: seq<Group>, weights: map<string, int>, moves: seq<real>, fee: real, rows: seq<Contributed>)
    requires |moves| == ASSETS
  {
    exists v: nat -> real ::
      && AreValues(groups, weights, moves, fee, v)
      && |rows| == |groups|
      && forall i :: 0 <= i < |groups| ==>
           rows[i] == Contributed(groups[i].id, groups[i].submitted, Contribution(v, |groups|, i))
  }

  /** What the caps and the weights let through. */
  ghost predicate Attributable(groups: seq<Group>, weights: map<string, int>, moves: seq<real>) {
    && |moves| == ASSETS && (forall k :: 0 <= k < ASSETS ==> moves[k] >= -1.0)
    && 3 <= |set i | 0 <= i < |groups| && groups[i].submitted|
    && forall id :: id in weights ==> 0 <= weights[id] <= 1000
  }

  lemma PullAppend(members: seq<Group>, g: Group, weights: map<string, int>, k: nat)
    requires k < ASSETS
    ensures Pull(members + [g], weights, k) == Pull(members, weights, k) + WeightOf(weights, g.id) * g.vector[k]
  {
    assert (members + [g])[..|members|] == members;
  }

  lemma MembersStep(groups: seq<Group>, mask: nat, n: nat)
    requires 0 < n <= |groups|
    ensures Members(groups[..n], mask)
      == if Bit(mask, n - 1) then Members(groups[..n - 1], mask) + [groups[n - 1]] else Members(groups[..n - 1], mask)
  {
    hide Bit;
    assert groups[..n][..n - 1] == groups[..n - 1];
    assert Members(groups[..n - 1], mask) + [] == Members(groups[..n - 1], mask);
  }

  lemma {:induction false} PullIsInfluence(groups: seq<Group>, weights: map<string, int>, mask: nat, k: nat, n: nat)
    requires k < ASSETS && n <= |groups|
    ensures Influence(groups, weights, mask, k, 0)
      == Pull(Members(groups[..n], mask), weights, k) + Influence(groups, weights, mask, k, n)
    decreases n
  {
    hide Bit, WeightOf;
    if n > 0 {
      hide Members, Pull;
      PullIsInfluence(groups, weights, mask, k, n - 1);
      MembersStep(groups, mask, n);
      PullAppend(Members(groups[..n - 1], mask), groups[n - 1], weights, k);
    }
  }

  lemma ClampedIsTarget(sum: int)
    ensures IsTarget(Clamp(Quot(sum, BPS)), sum)
  {
    FloorBounds(Abs(sum), BPS);
    if Abs(sum) > 25_000_000 {
      FloorAtLeast(Abs(sum), BPS, 2500);
    } else {
      FloorAtMost(Abs(sum), BPS, 2500);
    }
  }

  lemma TargetIs(groups: seq<Group>, weights: map<string, int>, mask: nat)
    ensures IsTargetOf(Target(Members(groups, mask), weights), groups, weights, mask)
  {
    hide Members, Influence, IsTarget, Clamp, Quot;
    assert groups[..|groups|] == groups;
    var t := Target(Members(groups, mask), weights);
    forall k | 0 <= k < ASSETS ensures IsTarget(t[k], Influence(groups, weights, mask, k, 0)) {
      PullIsInfluence(groups, weights, mask, k, |groups|);
      NoInfluence(groups, weights, mask, k);
      ClampedIsTarget(Pull(Members(groups, mask), weights, k));
      assert t[k] == TargetAt(Members(groups, mask), weights, k);
    }
  }

  lemma NoInfluence(groups: seq<Group>, weights: map<string, int>, mask: nat, k: nat)
    requires k < ASSETS
    ensures Influence(groups, weights, mask, k, |groups|) == 0
  {
  }

  lemma WorthIsEarned(t: Vector, moves: seq<real>, fee: real)
    requires |moves| == ASSETS
    ensures Worth(t, moves, fee) == Earned(t, moves, fee, 0)
  {
    forall k | 0 <= k < ASSETS
      ensures Earned(t, moves, fee, k) == WorthAt(t[k], moves[k], fee) + Earned(t, moves, fee, k + 1)
    {
      assert Abs(t[k]) as real * 2.0 * fee / 10000.0 == 2.0 * fee * Abs(t[k]) as real / 10000.0;
    }
  }

  lemma {:induction false} SubmittedCount(groups: seq<Group>)
    ensures Submitted(groups) == |set i | 0 <= i < |groups| && groups[i].submitted|
  {
    if groups != [] {
      var n := |groups| - 1;
      SubmittedCount(groups[..n]);
      var front, all := set i | 0 <= i < n && groups[..n][i].submitted, set i | 0 <= i < |groups| && groups[i].submitted;
      assert all == front + if groups[n].submitted then {n} else {};
      assert n !in front;
    }
  }

  /** Attribution succeeds exactly when returns, cohort and weights allow it, and gives every actor its Shapley value. */
  lemma AttributedIs(groups: seq<Group>, weights: map<string, int>, moves: seq<real>, fee: real)
    ensures Attribute(groups, weights, moves, fee).Ok? <==> Attributable(groups, weights, moves)
    ensures Attribute(groups, weights, moves, fee).Ok? ==>
      |moves| == ASSETS && IsAttribution(groups, weights, moves, fee, Attribute(groups, weights, moves, fee).value)
  {
    hide Contribution, Target, Worth, Members, IsTargetOf, Submitted, Power, Earned;
    SubmittedCount(groups);
    if Attribute(groups, weights, moves, fee).Ok? {
      var v := ValueOf(groups, weights, moves, fee);
      forall mask: nat ensures IsValue(groups, weights, moves, fee, mask, v(mask)) {
        TargetIs(groups, weights, mask);
        WorthIsEarned(Target(Members(groups, mask), weights), moves, fee);
      }
      assert AreValues(groups, weights, moves, fee, v);
    }
  }

  // ---------------------------------------------------------------------------------------------
  // The loops

  /** Whether a set of the values is as large as their list. */
  method AllDifferent(values: seq<string>) returns (different: bool)
    ensures different <==> NoRepeats(values)
  {
    var seen: set<string> := {};
    var i := 0;
    while i < |values|
      invariant 0 <= i <= |values|
      invariant NoRepeats(values[..i])
      invariant forall v :: v in seen <==> v in values[..i]
    {
      if values[i] in seen {
        return false;
      }
      seen := seen + {values[i]};
      i := i + 1;
    }
    return true;
  }

  method HasUniqueNames(actors: seq<Actor>, field: Field) returns (unique: bool)
    ensures unique <==> UniqueNames(Names(actors, field))
  {
    hide Lower;
    var names: seq<string> := [];
    var i := 0;
    while i < |actors|
      invariant 0 <= i <= |actors| && names == Names(actors, field)[..i]
    {
      names := names + [Lower(FieldOf(actors[i], field))];
      i := i + 1;
    }
    var different := AllDifferent(names);
    return different && "" !in names;
  }

  /** `validateActors`: the checks in their order, each in a pass of its own. */
  method ValidateActors(actors: seq<Actor>) returns (checked: Outcome<PolicyError>)
    ensures checked == CheckActors(actors)
  {
    hide Names, UniqueNames, NoRepeats, Admitted;
    if |actors| > MAX_ACTORS {
      return Fail(TooManyActors);
    }
    var ids := HasUniqueNames(actors, Id);
    if !ids {
      return Fail(NotUniqueId);
    }
    var payouts := HasUniqueNames(actors, Payout);
    if !payouts {
      return Fail(NotUniquePayout);
    }
    var subjects := HasUniqueNames(actors, Subject);
    if !subjects {
      return Fail(NotUniqueSubject);
    }
    var keys: seq<string> := [];
    var i := 0;
    while i < |actors|
      invariant 0 <= i <= |actors|
      invariant keys == AllKeys(actors[..i])
      invariant forall j :: 0 <= j < i ==> Admitted(actors[j])
    {
      if !Admitted(actors[i]) {
        return Fail(UnapprovedActor);
      }
      assert actors[..i + 1][..i] == actors[..i];
      keys := keys + actors[i].keys;
      i := i + 1;
    }
    assert actors[..i] == actors;
    var different := AllDifferent(keys);
    return if different then Pass else Fail(SharedKey);
  }

  /** `groupSignals`: one pass over the signals with the keys seen so far, then one group for each actor. */
  method GroupSignals(actors: seq<Actor>, signals: seq<Signal>) returns (groups: Result<seq<Group>, PolicyError>)
    ensures groups == Grouped(actors, signals)
  {
    hide KnownActor, ValidVector, GroupOf, CheckActors;
    var checked := ValidateActors(actors);
    if checked.Fail? {
      return Err(checked.error);
    }
    var seen: set<string> := {};
    var i := 0;
    while i < |signals|
      invariant 0 <= i <= |signals|
      invariant Check(actors, signals[..i]) == Pass
      invariant forall key :: key in seen <==> key in KeysOf(signals[..i])
    {
      var s := signals[i];
      CheckNext(actors, signals, i);
      if KnownActor(actors, s.key) != Some(s.actorId) || s.key in seen {
        CheckStays(actors, signals, i + 1);
        return Err(UnapprovedKey);
      }
      if !ValidVector(s.vector) {
        CheckStays(actors, signals, i + 1);
        return Err(BadVector);
      }
      KeysGrow(signals, i);
      seen := seen + {s.key};
      i := i + 1;
    }
    assert signals[..i] == signals;
    var out: seq<Group> := [];
    var a := 0;
    while a < |actors|
      invariant 0 <= a <= |actors| && |out| == a
      invariant forall j :: 0 <= j < a ==> out[j] == GroupOf(signals, actors[j].id)
    {
      out := out + [GroupOf(signals, actors[a].id)];
      a := a + 1;
    }
    assert out == seq(|actors|, j requires 0 <= j < |actors| => GroupOf(signals, actors[j].id));
    return Ok(out);
  }

  lemma CheckNext(actors: seq<Actor>, signals: seq<Signal>, i: nat)
    requires i < |signals| && Check(actors, signals[..i]) == Pass
    ensures Check(actors, signals[..i + 1]) ==
      if KnownActor(actors, signals[i].key) != Some(signals[i].actorId) || signals[i].key in KeysOf(signals[..i])
      then Fail(UnapprovedKey)
      else if !ValidVector(signals[i].vector) then Fail(BadVector) else Pass
  {
    hide KnownActor, ValidVector;
    assert signals[..i + 1][..i] == signals[..i];
  }

  lemma {:induction false} CheckStays(actors: seq<Actor>, signals: seq<Signal>, k: nat)
    requires k <= |signals| && Check(actors, signals[..k]).Fail?
    ensures Check(actors, signals) == Check(actors, signals[..k])
  {
    hide KnownActor, ValidVector;
    if k < |signals| {
      assert signals[..|signals| - 1][..k] == signals[..k];
      CheckStays(actors, signals[..|signals| - 1], k);
    } else {
      assert signals[..k] == signals;
    }
  }

  lemma KeysGrow(signals: seq<Signal>, i: nat)
    requires i < |signals|
    ensures KeysOf(signals[..i + 1]) == KeysOf(signals[..i]) + [signals[i].key]
  {
  }

  /** `attributeActors`: the value of every coalition first, then every actor's weighted gains. */
  method AttributeActors(groups: seq<Group>, weights: map<string, int>, moves: seq<real>, fee: real)
    returns (attributed: Result<seq<Contributed>, PolicyError>)
    ensures attributed == Attribute(groups, weights, moves, fee)
    ensures attributed.Ok? <==> Attributable(groups, weights, moves)
    ensures attributed.Ok? ==> |moves| == ASSETS && IsAttribution(groups, weights, moves, fee, attributed.value)
  {
    hide Power, Contribution, ValidReturns, Aggregate, Attributable, IsAttribution;
    AttributedIs(groups, weights, moves, fee);
    if !ValidReturns(moves) {
      return Err(InvalidReturns);
    }
    var aggregated := Aggregate(groups, weights);
    if aggregated.Err? {
      return Err(aggregated.error);
    }
    ReturnsCount(moves);
    var n := |groups|;
    ghost var v := ValueOf(groups, weights, moves, fee);
    var values := CoalitionValues(groups, weights, moves, fee);
    var out: seq<Contributed> := [];
    var i := 0;
    while i < n
      invariant 0 <= i <= n && |out| == i
      invariant forall m: nat :: m < values.Length ==> values[m] == v(m)
      invariant forall j :: 0 <= j < i ==> out[j] == Contributed(groups[j].id, groups[j].submitted, Contribution(v, n, j))
    {
      var contribution := GainsOf(values, v, n, i);
      out := out + [Contributed(groups[i].id, groups[i].submitted, contribution)];
      i := i + 1;
    }
    assert out == seq(n, j requires 0 <= j < n => Contributed(groups[j].id, groups[j].submitted, Contribution(v, n, j)));
    return Ok(out);
  }

  lemma ReturnsCount(moves: seq<real>)
    requires ValidReturns(moves)
    ensures |moves| == ASSETS
  {
  }

  method CoalitionValues(groups: seq<Group>, weights: map<string, int>, moves: seq<real>, fee: real)
    returns (values: array<real>)
    requires |moves| == ASSETS
    ensures fresh(values) && values.Length == Power(|groups|)
    ensures forall m: nat :: m < values.Length ==> values[m] == ValueOf(groups, weights, moves, fee)(m)
  {
    hide Members, Target, Worth, Power;
    values := new real[Power(|groups|)];
    var mask := 0;
    while mask < values.Length
      invariant 0 <= mask <= values.Length
      invariant forall m: nat :: m < mask ==> values[m] == ValueOf(groups, weights, moves, fee)(m)
    {
      values[mask] := Worth(Target(Members(groups, mask), weights), moves, fee);
      mask := mask + 1;
    }
  }

  method GainsOf(values: array<real>, ghost v: nat -> real, n: nat, i: nat) returns (contribution: real)
    requires i < n && values.Length == Power(n)
    requires forall m: nat :: m < values.Length ==> values[m] == v(m)
    ensures contribution == Contribution(v, n, i)
  {
    hide Power, Bit, Weight, Size;
    contribution := 0.0;
    var mask := 0;
    while mask < values.Length
      invariant 0 <= mask <= values.Length
      invariant contribution == Sum(Gains(v, n, i), 0, mask)
    {
      if !Bit(mask, i) {
        RoomForBit(mask, i, n);
        contribution := contribution + Weight(n, Size(mask)) * (values[mask + Power(i)] - values[mask]);
      }
      mask := mask + 1;
    }
  }
}
