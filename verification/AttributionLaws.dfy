/** What attribution and rewards promise: all of the value, nothing for nothing, equals alike, clones for free. */
module AttributionLaws {
  import opened Prelude
  import opened Division
  import opened Masks
  import opened Shapley
  import opened Attribution

  // ---------------------------------------------------------------------------------------------
  // Coalitions and their pull

  lemma {:induction false} EmptyCoalition(groups: seq<Group>)
    ensures Members(groups, 0) == []
  {
    if groups != [] {
      EmptyCoalition(groups[..|groups| - 1]);
      TopBit(0, |groups| - 1);
    }
  }

  lemma {:induction false} FullBit(n: nat, i: nat)
    requires i < n
    ensures Bit(Power(n) - 1, i)
  {
    assert (Power(n) - 1) / 2 == Power(n - 1) - 1 && (Power(n) - 1) % 2 == 1;
    if i > 0 {
      FullBit(n - 1, i - 1);
    }
  }

  lemma {:induction false} AllMembers(groups: seq<Group>, mask: nat)
    requires forall i :: 0 <= i < |groups| ==> Bit(mask, i)
    ensures Members(groups, mask) == groups
  {
    hide Bit;
    if groups != [] {
      AllMembers(groups[..|groups| - 1], mask);
    }
  }

  /** The pull of a coalition, actor by actor. */
  function PullBits(groups: seq<Group>, weights: map<string, int>, mask: nat, k: nat): int
    requires k < ASSETS
  {
    if groups == [] then 0
    else
      var n := |groups| - 1;
      PullBits(groups[..n], weights, mask, k)
      + if Bit(mask, n) then WeightOf(weights, groups[n].id) * groups[n].vector[k] else 0
  }

  lemma {:induction false} PullIsBits(groups: seq<Group>, weights: map<string, int>, mask: nat, k: nat)
    requires k < ASSETS
    ensures Pull(Members(groups, mask), weights, k) == PullBits(groups, weights, mask, k)
  {
    hide Bit, WeightOf;
    if groups != [] {
      var n := |groups| - 1;
      var front := Members(groups[..n], mask);
      PullIsBits(groups[..n], weights, mask, k);
      if Bit(mask, n) {
        assert (front + [groups[n]])[..|front|] == front;
      } else {
        assert front + [] == front;
      }
    }
  }

  /** Masks that agree below the number of groups pull alike. */
  lemma {:induction false} PullDepends(groups: seq<Group>, weights: map<string, int>, a: nat, b: nat, k: nat)
    requires k < ASSETS && forall j :: 0 <= j < |groups| ==> Bit(a, j) == Bit(b, j)
    ensures PullBits(groups, weights, a, k) == PullBits(groups, weights, b, k)
  {
    hide Bit, WeightOf;
    if groups != [] {
      PullDepends(groups[..|groups| - 1], weights, a, b, k);
    }
  }

  /** Joining a coalition adds the actor's own pull. */
  lemma {:induction false} JoinPulls(groups: seq<Group>, weights: map<string, int>, mask: nat, i: nat, k: nat)
    requires k < ASSETS && i < |groups| && !Bit(mask, i)
    ensures PullBits(groups, weights, mask + Power(i), k)
      == PullBits(groups, weights, mask, k) + WeightOf(weights, groups[i].id) * groups[i].vector[k]
  {
    hide Bit, WeightOf, Power;
    var n := |groups| - 1;
    AddBit(mask, i);
    if i == n {
      forall j | 0 <= j < n ensures Bit(mask + Power(i), j) == Bit(mask, j) {
        OtherBit(mask, i, j);
      }
      PullDepends(groups[..n], weights, mask + Power(i), mask, k);
    } else {
      OtherBit(mask, i, n);
      JoinPulls(groups[..n], weights, mask, i, k);
    }
  }

  /** A coalition's value depends on its pulls alone. */
  lemma ValueByPull(groups: seq<Group>, weights: map<string, int>, moves: seq<real>, fee: real, a: nat, b: nat)
    requires |moves| == ASSETS
    requires forall k :: 0 <= k < ASSETS ==> PullBits(groups, weights, a, k) == PullBits(groups, weights, b, k)
    ensures ValueOf(groups, weights, moves, fee)(a) == ValueOf(groups, weights, moves, fee)(b)
  {
    hide Members, PullBits, Worth, TargetAt;
    forall k | 0 <= k < ASSETS
      ensures TargetAt(Members(groups, a), weights, k) == TargetAt(Members(groups, b), weights, k)
    {
      TargetByPull(groups, weights, a, b, k);
    }
  }

  lemma TargetByPull(groups: seq<Group>, weights: map<string, int>, a: nat, b: nat, k: nat)
    requires k < ASSETS && PullBits(groups, weights, a, k) == PullBits(groups, weights, b, k)
    ensures TargetAt(Members(groups, a), weights, k) == TargetAt(Members(groups, b), weights, k)
  {
    hide Members, PullBits, Pull, Quot, Clamp;
    PullIsBits(groups, weights, a, k);
    PullIsBits(groups, weights, b, k);
  }

  // ---------------------------------------------------------------------------------------------
  // Attribution

  function TotalOf(contributed: seq<Contributed>): real {
    if contributed == [] then 0.0
    else TotalOf(contributed[..|contributed| - 1]) + contributed[|contributed| - 1].contribution
  }

  lemma {:induction false} TotalIsTotal(contributed: seq<Contributed>, v: nat -> real, n: nat, j: nat)
    requires j <= |contributed| && forall i :: 0 <= i < j ==> contributed[i].contribution == Contribution(v, n, i)
    ensures TotalOf(contributed[..j]) == Total(v, n, j)
  {
    hide Contribution;
    if j > 0 {
      assert contributed[..j][..j - 1] == contributed[..j - 1];
      TotalIsTotal(contributed, v, n, j - 1);
    }
  }

  lemma EmptyIsWorthNothing(groups: seq<Group>, weights: map<string, int>, moves: seq<real>, fee: real)
    requires |moves| == ASSETS
    ensures ValueOf(groups, weights, moves, fee)(0) == 0.0
  {
    EmptyCoalition(groups);
    ZeroWorth(moves, fee);
    assert Target([], weights) == [0, 0, 0, 0];
  }

  lemma ZeroWorth(moves: seq<real>, fee: real)
    requires |moves| == ASSETS
    ensures Worth([0, 0, 0, 0], moves, fee) == 0.0
  {
    forall k | 0 <= k < ASSETS ensures WorthAt(0, moves[k], fee) == 0.0 {
      assert 0.0 * moves[k] == 0.0;
      assert 0.0 * 2.0 * fee / BPS as real == 0.0;
    }
  }

  /** The contributions add up to exactly what the capped portfolio of all actors earns. */
  lemma AttributionIsEfficient(groups: seq<Group>, weights: map<string, int>, moves: seq<real>, fee: real)
    requires Attribute(groups, weights, moves, fee).Ok?
    ensures |moves| == ASSETS && Aggregate(groups, weights).Ok?
    ensures TotalOf(Attribute(groups, weights, moves, fee).value)
      == Worth(Aggregate(groups, weights).value, moves, fee)
    ensures exists t: Vector ::
      && IsTargetOf(t, groups, weights, Power(|groups|) - 1)
      && TotalOf(Attribute(groups, weights, moves, fee).value) == Earned(t, moves, fee, 0)
  {
    hide Worth, Target, Members, Contribution, Power, Submitted, WeightsCapped, Total, IsTargetOf, Earned;
    var v, n, out := ValueOf(groups, weights, moves, fee), |groups|, Attribute(groups, weights, moves, fee).value;
    Efficiency(v, n);
    TotalIsTotal(out, v, n, n);
    assert out[..n] == out;
    EmptyIsWorthNothing(groups, weights, moves, fee);
    GrandCoalition(groups);
    TargetIs(groups, weights, Power(n) - 1);
    WorthIsEarned(Target(groups, weights), moves, fee);
  }

  /** A portfolio earns more when an asset it holds returns more, and less when one it is short of does. */
  lemma {:induction false} EarningsFollowReturns(t: Vector, moves: seq<real>, fee: real, k: nat, more: real, from: nat)
    requires |moves| == ASSETS && from <= k < ASSETS && moves[k] <= more
    ensures t[k] >= 0 ==> Earned(t, moves, fee, from) <= Earned(t, moves[k := more], fee, from)
    ensures t[k] <= 0 ==> Earned(t, moves[k := more], fee, from) <= Earned(t, moves, fee, from)
    decreases k - from
  {
    hide EarnedAt;
    if from < k {
      EarningsFollowReturns(t, moves, fee, k, more, from + 1);
    } else {
      EarnedFollows(t[k], moves[k], more, fee);
      SameEarnings(t, moves, moves[k := more], fee, k + 1);
    }
  }

  lemma {:induction false} SameEarnings(t: Vector, moves: seq<real>, later: seq<real>, fee: real, from: nat)
    requires |moves| == |later| == ASSETS && from <= ASSETS
    requires forall j :: from <= j < ASSETS ==> moves[j] == later[j]
    ensures Earned(t, moves, fee, from) == Earned(t, later, fee, from)
    decreases ASSETS - from
  {
    hide EarnedAt;
    if from < ASSETS {
      SameEarnings(t, moves, later, fee, from + 1);
    }
  }

  lemma EarnedFollows(bps: int, r: real, more: real, fee: real)
    requires r <= more
    ensures bps >= 0 ==> EarnedAt(bps, r, fee) <= EarnedAt(bps, more, fee)
    ensures bps <= 0 ==> EarnedAt(bps, more, fee) <= EarnedAt(bps, r, fee)
  {
    ScaledReturn(bps, r, more);
  }

  lemma ScaledReturn(bps: int, r: real, more: real)
    requires r <= more
    ensures bps >= 0 ==> bps as real * r <= bps as real * more
    ensures bps <= 0 ==> bps as real * more <= bps as real * r
    ensures bps == 0 ==> bps as real * more == bps as real * r
  {
  }

  lemma GrandCoalition(groups: seq<Group>)
    ensures Members(groups, Power(|groups|) - 1) == groups
  {
    hide Bit, Power, Members;
    var full: nat := Power(|groups|) - 1;
    forall i: nat | i < |groups| ensures Bit(full, i) {
      FullBit(|groups|, i);
    }
    AllMembers(groups, full);
  }

  /** An actor without weight, or whose vector is zero, gets nothing. */
  lemma ZeroVectorGetsNothing(groups: seq<Group>, weights: map<string, int>, moves: seq<real>, fee: real, i: nat)
    requires Attribute(groups, weights, moves, fee).Ok? && i < |groups|
    requires WeightOf(weights, groups[i].id) == 0 || groups[i].vector == [0, 0, 0, 0]
    ensures Attribute(groups, weights, moves, fee).value[i].contribution == 0.0
  {
    hide Contribution, Power, Bit, Aggregate, WeightOf, ValueOf;
    var v, n := ValueOf(groups, weights, moves, fee), |groups|;
    forall m: nat | m < Power(n) && !Bit(m, i) ensures v(m + Power(i)) == v(m) {
      NullJoins(groups, weights, moves, fee, i, m);
    }
    NullActor(v, n, i);
  }

  lemma NullJoins(groups: seq<Group>, weights: map<string, int>, moves: seq<real>, fee: real, i: nat, m: nat)
    requires |moves| == ASSETS && i < |groups| && !Bit(m, i)
    requires WeightOf(weights, groups[i].id) == 0 || groups[i].vector == [0, 0, 0, 0]
    ensures ValueOf(groups, weights, moves, fee)(m + Power(i)) == ValueOf(groups, weights, moves, fee)(m)
  {
    hide Power, Bit, WeightOf, PullBits, ValueOf;
    var joined := m + Power(i);
    forall k | 0 <= k < ASSETS ensures PullBits(groups, weights, joined, k) == PullBits(groups, weights, m, k) {
      JoinPulls(groups, weights, m, i, k);
      ZeroProduct(WeightOf(weights, groups[i].id), groups[i].vector[k]);
    }
    ValueByPull(groups, weights, moves, fee, joined, m);
  }

  lemma ZeroProduct(a: int, b: int)
    ensures a == 0 || b == 0 ==> a * b == 0
  {
  }

  /** Actors with the same weight and the same vector get the same. */
  lemma EqualGetsEqual(groups: seq<Group>, weights: map<string, int>, moves: seq<real>, fee: real, i: nat, j: nat)
    requires Attribute(groups, weights, moves, fee).Ok? && i < |groups| && j < |groups| && i != j
    requires WeightOf(weights, groups[i].id) == WeightOf(weights, groups[j].id)
    requires groups[i].vector == groups[j].vector
    ensures Attribute(groups, weights, moves, fee).value[i].contribution
      == Attribute(groups, weights, moves, fee).value[j].contribution
  {
    hide Contribution, Power, Bit, Aggregate, WeightOf, ValueOf;
    var v, n := ValueOf(groups, weights, moves, fee), |groups|;
    forall m: nat | m < Power(n) && !Bit(m, i) && !Bit(m, j) ensures v(m + Power(i)) == v(m + Power(j)) {
      EqualJoins(groups, weights, moves, fee, i, j, m);
    }
    EqualActors(v, n, i, j);
  }

  lemma EqualJoins(groups: seq<Group>, weights: map<string, int>, moves: seq<real>, fee: real, i: nat, j: nat, m: nat)
    requires |moves| == ASSETS && i < |groups| && j < |groups| && !Bit(m, i) && !Bit(m, j)
    requires WeightOf(weights, groups[i].id) == WeightOf(weights, groups[j].id)
    requires groups[i].vector == groups[j].vector
    ensures ValueOf(groups, weights, moves, fee)(m + Power(i)) == ValueOf(groups, weights, moves, fee)(m + Power(j))
  {
    hide Power, Bit, WeightOf, PullBits, ValueOf;
    var a, b := m + Power(i), m + Power(j);
    forall k | 0 <= k < ASSETS ensures PullBits(groups, weights, a, k) == PullBits(groups, weights, b, k) {
      JoinPulls(groups, weights, m, i, k);
      JoinPulls(groups, weights, m, j, k);
    }
    ValueByPull(groups, weights, moves, fee, a, b);
  }

  // ---------------------------------------------------------------------------------------------
  // Admission

  /** The key of a signal is one of its actor's. */
  predicate Owns(actors: seq<Actor>, id: string, key: string) {
    exists i :: 0 <= i < |actors| && actors[i].id == id && key in actors[i].keys
  }

  lemma {:induction false} KeysHave(actors: seq<Actor>, i: nat)
    requires i < |actors|
    ensures forall key :: key in actors[i].keys ==> key in AllKeys(actors)
  {
    if i < |actors| - 1 {
      assert actors[..|actors| - 1][i] == actors[i];
      KeysHave(actors[..|actors| - 1], i);
    }
  }

  lemma NoRepeatsSplit(a: seq<string>, b: seq<string>)
    requires NoRepeats(a + b)
    ensures NoRepeats(a)
    ensures forall key :: key in a ==> key !in b
  {
    assert forall i :: 0 <= i < |a| ==> (a + b)[i] == a[i];
    assert forall j :: 0 <= j < |b| ==> (a + b)[|a| + j] == b[j];
  }

  /** With no key shared, the last mention of a key is its only one. */
  lemma {:induction false} KnownIff(actors: seq<Actor>, id: string, key: string)
    requires NoRepeats(AllKeys(actors))
    ensures KnownActor(actors, key) == Some(id) <==> Owns(actors, id, key)
  {
    hide NoRepeats;
    if actors != [] {
      var front, last := actors[..|actors| - 1], actors[|actors| - 1];
      NoRepeatsSplit(AllKeys(front), last.keys);
      KnownIff(front, id, key);
      forall i: nat | i < |front| ensures forall k :: k in front[i].keys ==> k !in last.keys {
        KeysHave(front, i);
      }
      OwnsStep(actors, id, key);
    }
  }

  lemma OwnsStep(actors: seq<Actor>, id: string, key: string)
    requires actors != []
    ensures var front, last := actors[..|actors| - 1], actors[|actors| - 1];
      Owns(actors, id, key) <==> Owns(front, id, key) || (last.id == id && key in last.keys)
  {
    var front, last := actors[..|actors| - 1], actors[|actors| - 1];
    if Owns(front, id, key) {
      var i :| 0 <= i < |front| && front[i].id == id && key in front[i].keys;
      assert actors[i].id == id && key in actors[i].keys;
    }
    if last.id == id && key in last.keys {
      assert actors[|actors| - 1] == last;
    }
  }

  predicate Acceptable(actors: seq<Actor>, signals: seq<Signal>) {
    && NoRepeats(KeysOf(signals))
    && forall i :: 0 <= i < |signals| ==>
         Owns(actors, signals[i].actorId, signals[i].key) && ValidVector(signals[i].vector)
  }

  lemma {:induction false} SignalsPassIff(actors: seq<Actor>, signals: seq<Signal>)
    requires NoRepeats(AllKeys(actors))
    ensures Check(actors, signals) == Pass <==> Acceptable(actors, signals)
  {
    hide Owns, KnownActor, ValidVector, AllKeys, Acceptable, NoRepeats;
    if signals != [] {
      var front, last := signals[..|signals| - 1], signals[|signals| - 1];
      SignalsPassIff(actors, front);
      KnownIff(actors, last.actorId, last.key);
      AcceptableStep(actors, front, last);
      assert signals == front + [last];
    } else {
      NoSignalsToAccept(actors);
    }
  }

  lemma NoSignalsToAccept(actors: seq<Actor>)
    ensures Acceptable(actors, [])
  {
  }

  lemma AcceptableStep(actors: seq<Actor>, front: seq<Signal>, last: Signal)
    ensures Acceptable(actors, front + [last]) <==>
      && Acceptable(actors, front)
      && Owns(actors, last.actorId, last.key) && ValidVector(last.vector)
      && last.key !in KeysOf(front)
  {
    hide Owns, ValidVector;
    var signals := front + [last];
    assert KeysOf(signals) == KeysOf(front) + [last.key];
    assert KeysOf(signals)[|front|] == last.key && signals[|front|] == last;
    assert forall i :: 0 <= i < |front| ==> KeysOf(signals)[i] == KeysOf(front)[i] && signals[i] == front[i];
  }

  /**
   Signals are grouped exactly when the actors are admitted and every signal is a valid vector under a key of its own
   actor, no key twice: neither the order of actors nor that of signals decides. There are never more than eight groups,
   so a coalition is always a mask of eight bits.
   */
  lemma GroupedIff(actors: seq<Actor>, signals: seq<Signal>)
    ensures Grouped(actors, signals).Ok? <==> CheckActors(actors) == Pass && Acceptable(actors, signals)
    ensures Grouped(actors, signals).Ok? ==>
      var groups := Grouped(actors, signals).value;
      && |groups| == |actors| <= MAX_ACTORS && Power(|groups|) <= 256
      && forall i, j :: 0 <= i < j < |groups| ==> groups[i].id != groups[j].id
  {
    hide Acceptable, AllKeys, Unique, Mean, Check, Power;
    if CheckActors(actors) == Pass {
      SignalsPassIff(actors, signals);
      EightBits(|actors|);
      IdsDiffer(actors);
    }
  }

  lemma IdsDiffer(actors: seq<Actor>)
    requires UniqueNames(Names(actors, Id))
    ensures forall i, j :: 0 <= i < j < |actors| ==> actors[i].id != actors[j].id
  {
    hide Lower;
    forall i, j | 0 <= i < j < |actors| ensures actors[i].id != actors[j].id {
      assert Names(actors, Id)[i] != Names(actors, Id)[j];
    }
  }

  lemma EightBits(n: nat)
    requires n <= MAX_ACTORS
    ensures Power(n) <= 256
  {
    assert Power(8) == 256;
    PowerMonotone(n, 8);
  }

  lemma {:induction false} PowerMonotone(n: nat, m: nat)
    requires n <= m
    ensures Power(n) <= Power(m)
    decreases m - n
  {
    if n < m {
      PowerMonotone(n + 1, m);
    }
  }

  // ---------------------------------------------------------------------------------------------
  // Signals

  /** A second key with a vector its actor already submitted changes no group. */
  lemma CloneChangesNothing(actors: seq<Actor>, more: seq<Actor>, signals: seq<Signal>, clone: Signal, k: nat)
    requires |more| == |actors| && forall i :: 0 <= i < |actors| ==> more[i].id == actors[i].id
    requires k < |signals| && signals[k].actorId == clone.actorId && signals[k].vector == clone.vector
    requires Grouped(actors, signals).Ok? && Grouped(more, signals + [clone]).Ok?
    ensures Grouped(more, signals + [clone]) == Grouped(actors, signals)
  {
    hide Check, GroupOf;
    var a, b := Grouped(more, signals + [clone]).value, Grouped(actors, signals).value;
    forall i | 0 <= i < |actors| ensures a[i] == b[i] {
      CloneIsKnown(signals, clone, k, actors[i].id);
      GroupByUnique(signals + [clone], signals, actors[i].id);
    }
    assert a == b;
  }

  lemma GroupByUnique(a: seq<Signal>, b: seq<Signal>, id: string)
    requires Unique(a, id) == Unique(b, id)
    ensures GroupOf(a, id) == GroupOf(b, id)
  {
    hide Unique, Mean;
  }

  lemma CloneIsKnown(signals: seq<Signal>, clone: Signal, k: nat, id: string)
    requires k < |signals| && signals[k].actorId == clone.actorId && signals[k].vector == clone.vector
    ensures Unique(signals + [clone], id) == Unique(signals, id)
  {
    hide Unique;
    assert (signals + [clone])[..|signals|] == signals;
    SubmittedIsUnique(signals, k);
    UniqueStep(signals + [clone], id);
  }

  lemma UniqueStep(signals: seq<Signal>, id: string)
    requires signals != []
    ensures
      var u, last := Unique(signals[..|signals| - 1], id), signals[|signals| - 1];
      Unique(signals, id)
        == if last.actorId == id && |last.vector| == ASSETS && last.vector !in u then u + [last.vector] else u
  {
  }

  lemma {:induction false} SubmittedIsUnique(signals: seq<Signal>, k: nat)
    requires k < |signals|
    ensures |signals[k].vector| == ASSETS ==> signals[k].vector in Unique(signals, signals[k].actorId)
  {
    hide Unique;
    UniqueStep(signals, signals[k].actorId);
    if k < |signals| - 1 {
      SubmittedIsUnique(signals[..|signals| - 1], k);
    }
  }

  /** The vector of a group: at each asset the mean of the actor's different vectors, rounded toward zero. */
  lemma MeanIs(signals: seq<Signal>, id: string, k: nat)
    requires k < ASSETS
    ensures var u, mean := Unique(signals, id), GroupOf(signals, id).vector[k];
      && GroupOf(signals, id).id == id && (GroupOf(signals, id).submitted <==> u != [])
      && (u == [] ==> mean == 0)
      && (u != [] ==>
            && |u| * Abs(mean) <= Abs(SumAt(u, k)) < |u| * (Abs(mean) + 1)
            && (mean > 0 ==> SumAt(u, k) > 0) && (mean < 0 ==> SumAt(u, k) < 0))
  {
    hide Unique, SumAt;
    var u := Unique(signals, id);
    if u != [] {
      FloorBounds(Abs(SumAt(u, k)), |u|);
      TruncatedSign(SumAt(u, k), |u|);
      match k
      case 0 =>
      case 1 =>
      case 2 =>
      case _ =>
    }
  }

  lemma TruncatedSign(a: int, n: int)
    requires n > 0
    ensures Abs(Quot(a, n)) == Abs(a) / n
    ensures Quot(a, n) > 0 ==> a > 0
    ensures Quot(a, n) < 0 ==> a < 0
    ensures n * (Abs(Quot(a, n)) + 1) == n * (Abs(a) / n) + n
  {
    FloorAtLeast(Abs(a), n, 0);
  }

  lemma {:induction false} SumWithin(u: seq<Vector>, k: nat, low: int, high: int)
    requires k < ASSETS && forall v :: v in u ==> low <= v[k] <= high
    ensures |u| * low <= SumAt(u, k) <= |u| * high
  {
    if u != [] {
      var n := |u| - 1;
      SumWithin(u[..n], k, low, high);
      MulNext(low, n);
      MulNext(high, n);
      MulFlip(low, n);
    }
  }

  /** The mean lies between whatever the actor's vectors lie between. */
  lemma MeanWithin(signals: seq<Signal>, id: string, k: nat, low: int, high: int)
    requires k < ASSETS && Unique(signals, id) != []
    requires forall v :: v in Unique(signals, id) ==> low <= v[k] <= high
    ensures low <= GroupOf(signals, id).vector[k] <= high
  {
    hide Unique, SumAt, GroupOf, Quot;
    var u, mean := Unique(signals, id), GroupOf(signals, id).vector[k];
    MeanIs(signals, id, k);
    SumWithin(u, k, low, high);
    TruncatedWithin(SumAt(u, k), |u|, mean, low, high);
  }

  lemma TruncatedAtLeast(sum: int, n: int, mean: int, low: int)
    requires n > 0 && n * low <= sum
    requires n * Abs(mean) <= Abs(sum) < n * (Abs(mean) + 1)
    requires (mean > 0 ==> sum > 0) && (mean < 0 ==> sum < 0)
    ensures low <= mean
  {
    if mean < low {
      MulMonotone(n, mean + 1, low);
    }
  }

  lemma TruncatedWithin(sum: int, n: int, mean: int, low: int, high: int)
    requires n > 0 && n * low <= sum <= n * high
    requires n * Abs(mean) <= Abs(sum) < n * (Abs(mean) + 1)
    requires (mean > 0 ==> sum > 0) && (mean < 0 ==> sum < 0)
    ensures low <= mean <= high
  {
    TruncatedAtLeast(sum, n, mean, low);
    assert n * (-high) == -(n * high);
    TruncatedAtLeast(-sum, n, -mean, -high);
  }



  /** An actor's vectors are all different, and all were submitted. */
  lemma {:induction false} UniqueIsDistinct(signals: seq<Signal>, id: string)
    ensures var u := Unique(signals, id); forall i, j :: 0 <= i < j < |u| ==> u[i] != u[j]
    ensures forall w :: w in Unique(signals, id) ==>
      exists k :: 0 <= k < |signals| && signals[k].actorId == id && signals[k].vector == w
  {
    hide Unique;
    if signals == [] {
      NoSignals(id);
    } else {
      var front := signals[..|signals| - 1];
      UniqueStep(signals, id);
      UniqueIsDistinct(front, id);
      forall w | w in Unique(signals, id)
        ensures exists k :: 0 <= k < |signals| && signals[k].actorId == id && signals[k].vector == w
      {
        if w in Unique(front, id) {
          var k :| 0 <= k < |front| && front[k].actorId == id && front[k].vector == w;
          assert signals[k] == front[k];
        } else {
          assert signals[|signals| - 1].vector == w;
        }
      }
    }
  }

  lemma NoSignals(id: string)
    ensures Unique([], id) == []
  {
  }

  // ---------------------------------------------------------------------------------------------
  // Rewards

  /** What a list of floors leaves of the exact shares, and what it hands out in all. */
  lemma {:induction false} FloorsOf(parts: seq<nat>, total: nat, pool: nat)
    requires total > 0
    ensures total * SumOf(Rewards(parts, total, pool)) <= pool * SumOf(parts)
    ensures pool * SumOf(parts) <= total * SumOf(Rewards(parts, total, pool)) + |parts| * (total - 1)
  {
    if parts != [] {
      var front, last := parts[..|parts| - 1], parts[|parts| - 1];
      FloorsOf(front, total, pool);
      assert Rewards(parts, total, pool)[..|parts| - 1] == Rewards(front, total, pool);
      FloorStep(pool, last, total, SumOf(front), SumOf(Rewards(front, total, pool)), |parts|);
    }
  }

  lemma FloorStep(pool: nat, p: nat, total: nat, s: nat, r: nat, n: nat)
    requires total > 0 && n > 0
    ensures total * (r + pool * p / total) <= total * r + pool * p
    ensures pool * (s + p) == pool * s + pool * p
    ensures pool * p <= total * (pool * p / total) + total - 1
    ensures total * (r + pool * p / total) == total * r + total * (pool * p / total)
    ensures n * (total - 1) == (n - 1) * (total - 1) + (total - 1)
  {
    FloorBounds(pool * p, total);
  }

  /** Rewards are handed out when anyone gained, never beyond the pool, and short of it by less than a unit each. */
  lemma RewardsFillPool(contributions: seq<Contributed>, pool: nat)
    ensures
      var parts := Positives(contributions);
      var handed := SumOf(Allocated(contributions, pool).value);
      if SumOf(parts) == 0 then handed == 0 else handed <= pool <= handed + |parts|
  {
    hide Positives, SumOf;
    var parts := Positives(contributions);
    var total := SumOf(parts);
    if total == 0 {
      NoRewards(parts, pool);
    } else {
      FloorsOf(parts, total, pool);
      PoolBounds(total, SumOf(Rewards(parts, total, pool)), pool, |parts|);
    }
  }

  lemma {:induction false} NoRewards(parts: seq<nat>, pool: nat)
    ensures SumOf(Rewards(parts, 0, pool)) == 0
  {
    if parts != [] {
      NoRewards(parts[..|parts| - 1], pool);
      assert Rewards(parts, 0, pool)[..|parts| - 1] == Rewards(parts[..|parts| - 1], 0, pool);
    }
  }

  lemma PoolBounds(total: nat, handed: nat, pool: nat, n: nat)
    requires total > 0 && total * handed <= pool * total && pool * total <= total * handed + n * (total - 1)
    ensures handed <= pool <= handed + n
  {
    assert pool * total == total * pool;
    assert n * (total - 1) == total * n - n && total * (handed + n) == total * handed + total * n;
    CancelFactor(total, handed, pool);
    CancelFactor(total, pool, handed + n);
  }

  lemma CancelFactor(c: nat, a: nat, b: nat)
    requires c > 0 && c * a <= c * b
    ensures a <= b
  {
    if b < a {
      MulMonotone(c, b + 1, a);
    }
  }

  // ---------------------------------------------------------------------------------------------
  // Each reward

  /** A contribution in units of 10^-8, rounded to the nearest, a half up; nothing from below. */
  ghost predicate IsRounded(p: nat, contribution: real) {
    if p == 0 then 200000000.0 * contribution < 1.0
    else 2.0 * p as real - 1.0 <= 200000000.0 * contribution < 2.0 * p as real + 1.0
  }

  /** Everyone's reward: the part of the pool of the rounded contribution, rounded down. */
  lemma RewardIs(contributions: seq<Contributed>, pool: nat, i: nat)
    requires i < |contributions|
    ensures Allocated(contributions, pool).Ok? && |Allocated(contributions, pool).value| == |contributions|
    ensures var parts, reward := Positives(contributions), Allocated(contributions, pool).value[i];
      && IsRounded(parts[i], contributions[i].contribution)
      && (if SumOf(parts) == 0 then reward == 0 else IsFloor(reward, pool * parts[i], SumOf(parts)))
  {
    hide SumOf, IsFloor;
    var parts := Positives(contributions);
    if SumOf(parts) > 0 {
      FloorBounds(pool * parts[i], SumOf(parts));
      FloorIs(pool * parts[i], SumOf(parts));
    }
  }

  lemma FloorIs(a: int, b: int)
    requires b > 0 && a >= 0
    ensures IsFloor(a / b, a, b)
  {
    QuotIsFloor(a, b);
  }

  /** Who contributed more never gets less. */
  lemma MoreNeverGetsLess(contributions: seq<Contributed>, pool: nat, i: nat, j: nat)
    requires i < |contributions| && j < |contributions|
    requires contributions[i].contribution <= contributions[j].contribution
    ensures Allocated(contributions, pool).Ok?
    ensures Allocated(contributions, pool).value[i] <= Allocated(contributions, pool).value[j]
  {
    hide SumOf;
    var parts := Positives(contributions);
    RoundedFollow(contributions[i].contribution, contributions[j].contribution);
    if SumOf(parts) > 0 {
      MulMonotone(pool, parts[i], parts[j]);
      FloorMonotone(pool * parts[i], pool * parts[j], SumOf(parts));
    }
  }

  lemma RoundedFollow(a: real, b: real)
    requires a <= b
    ensures Positive(a) <= Positive(b)
  {
  }
}
