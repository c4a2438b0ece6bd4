/**
 The lane router: a floor split among all miners, the rest split over lanes by
 routing share and within a lane by score, and a burn for what nobody gets. In
 exact arithmetic; a value that is no finite number is Bad.
 */
module Routing {
  import opened Sums

  datatype Number = Bad | Finite(value: real)

  type Lanes = map<string, map<string, Number>>
  type Weights = map<string, real>

  // ------------------------------------------------------------ what each value counts for

  function Clamped(floor: Number): (f: real)
    ensures 0.0 <= f <= 1.0
  {
    if floor.Bad? || floor.value < 0.0 then 0.0 else if floor.value > 1.0 then 1.0 else floor.value
  }

  function ShareOf(n: Number): (s: real)
    ensures s >= 0.0
  {
    if n.Finite? && n.value > 0.0 then n.value else 0.0
  }

  function ScoreOf(n: Number): (s: real)
    ensures s >= 0.0
  {
    if n.Finite? && n.value >= 0.0 then n.value else 0.0
  }

  function Shares(routing: map<string, Number>): Weights {
    map lane | lane in routing :: ShareOf(routing[lane])
  }

  function Scores(miners: map<string, Number>): Weights {
    map m | m in miners :: ScoreOf(miners[m])
  }

  ghost function Denominator(routing: map<string, Number>): real {
    Total(Shares(routing))
  }

  ghost function TotalScore(miners: map<string, Number>): real {
    Total(Scores(miners))
  }

  function Admitted(lanes: Lanes): set<string> {
    set lane, m | lane in lanes && m in lanes[lane] :: m
  }

  // ------------------------------------------------------------ what each miner gets

  /** The work budget of a lane: its part of the shares. */
  ghost function Budget(routing: map<string, Number>, work: real, lane: string): real
    requires lane in routing
  {
    if Denominator(routing) > 0.0 then work * ShareOf(routing[lane]) / Denominator(routing) else 0.0
  }

  /** Some miner of the lane has a positive score. */
  ghost predicate Paid(lanes: Lanes, lane: string) {
    lane in lanes && TotalScore(lanes[lane]) > 0.0
  }

  /** What the miners of a lane get together. */
  ghost function LaneBudget(lanes: Lanes, routing: map<string, Number>, work: real, lane: string): real
    requires lane in routing
  {
    if Paid(lanes, lane) then Budget(routing, work, lane) else 0.0
  }

  /** What one miner gets of the budget of a lane that is paid. */
  ghost function Part(budget: real, miners: map<string, Number>, m: string): real
    requires m in miners && TotalScore(miners) > 0.0
  {
    budget * ScoreOf(miners[m]) / TotalScore(miners)
  }

  ghost function Portion(lanes: Lanes, routing: map<string, Number>, work: real, lane: string, m: string): real
    requires lane in routing
  {
    if Paid(lanes, lane) && m in lanes[lane] then Part(Budget(routing, work, lane), lanes[lane], m) else 0.0
  }

  ghost function Portions(lanes: Lanes, routing: map<string, Number>, work: real, done: set<string>, m: string): Weights
    requires done <= routing.Keys
  {
    map lane | lane in done :: Portion(lanes, routing, work, lane, m)
  }

  ghost function FloorShare(lanes: Lanes, floor: real): real {
    if Admitted(lanes) == {} then 0.0 else floor / |Admitted(lanes)| as real
  }

  // ------------------------------------------------------------ what is burned

  /** The budgets of lanes that nobody is paid from. */
  ghost function Unpaid(lanes: Lanes, routing: map<string, Number>, work: real): Weights {
    map lane | lane in routing :: Budget(routing, work, lane) - LaneBudget(lanes, routing, work, lane)
  }

  ghost function Burned(lanes: Lanes, routing: map<string, Number>, floor: real): real {
    (if Admitted(lanes) == {} then floor else 0.0)
    + if Denominator(routing) > 0.0 then Total(Unpaid(lanes, routing, 1.0 - floor)) else 1.0 - floor
  }

  // ------------------------------------------------------------ sums

  lemma Ratio(a: real, b: real, t: real)
    requires t > 0.0
    ensures a * b / t == a / t * b && (a >= 0.0 && b >= 0.0 ==> a * b / t >= 0.0)
  {
    assert a * b / t == a * (b / t);
    if a >= 0.0 && b >= 0.0 {
      assert a * b >= 0.0;
    }
  }

  lemma WholeRatio(a: real, t: real)
    requires t > 0.0
    ensures a / t * t == a
  {
  }

  lemma PartIs(budget: real, miners: map<string, Number>, m: string)
    requires m in miners && TotalScore(miners) > 0.0
    ensures Scaled(budget / TotalScore(miners), ScoreOf(miners[m]), Part(budget, miners, m))
    ensures budget >= 0.0 ==> Part(budget, miners, m) >= 0.0
  {
    Ratio(budget, ScoreOf(miners[m]), TotalScore(miners));
  }

  ghost function Parts(budget: real, miners: map<string, Number>): Weights
    requires TotalScore(miners) > 0.0
  {
    map m | m in miners :: Part(budget, miners, m)
  }

  lemma WholeScaled(a: real, t: real, sum: real)
    requires t > 0.0 && Scaled(a / t, t, sum)
    ensures sum == a
  {
    WholeRatio(a, t);
  }

  /** The parts of a paid lane add up to its budget. */
  lemma PartsAddUp(budget: real, miners: map<string, Number>)
    requires TotalScore(miners) > 0.0
    ensures Total(Parts(budget, miners)) == budget
  {
    var t := TotalScore(miners);
    forall m | m in Scores(miners)
      ensures Scaled(budget / t, Scores(miners)[m], Parts(budget, miners)[m])
    {
      PartIs(budget, miners, m);
    }
    TotalScale(Scores(miners), Parts(budget, miners), budget / t);
    WholeScaled(budget, t, Total(Parts(budget, miners)));
  }

  lemma BudgetIs(routing: map<string, Number>, work: real, lane: string)
    requires lane in routing && Denominator(routing) > 0.0
    ensures Scaled(work / Denominator(routing), ShareOf(routing[lane]), Budget(routing, work, lane))
    ensures work >= 0.0 ==> Budget(routing, work, lane) >= 0.0
  {
    Ratio(work, ShareOf(routing[lane]), Denominator(routing));
  }

  ghost function Budgets(routing: map<string, Number>, work: real): Weights {
    map lane | lane in routing :: Budget(routing, work, lane)
  }

  /** The budgets of all lanes add up to the work. */
  lemma BudgetsAddUp(routing: map<string, Number>, work: real)
    requires Denominator(routing) > 0.0
    ensures Total(Budgets(routing, work)) == work
  {
    var t := Denominator(routing);
    forall lane | lane in Shares(routing)
      ensures Scaled(work / t, Shares(routing)[lane], Budgets(routing, work)[lane])
    {
      BudgetIs(routing, work, lane);
    }
    TotalScale(Shares(routing), Budgets(routing, work), work / t);
    WholeScaled(work, t, Total(Budgets(routing, work)));
  }

  // ------------------------------------------------------------ conservation

  /** What a lane gives to the miners, each under its name. */
  ghost function LaneGives(lanes: Lanes, routing: map<string, Number>, work: real, lane: string): Weights
    requires lane in routing
  {
    map m | m in Admitted(lanes) :: Portion(lanes, routing, work, lane, m)
  }

  /** The floor share of a miner and its parts of the lanes in done. */
  ghost function GivenTo(lanes: Lanes, routing: map<string, Number>, floor: real, done: set<string>, m: string): real
    requires done <= routing.Keys
  {
    FloorShare(lanes, floor) + Total(Portions(lanes, routing, 1.0 - floor, done, m))
  }

  /** The weights after the lanes in done. */
  ghost function Given(lanes: Lanes, routing: map<string, Number>, floor: real, done: set<string>): Weights
    requires done <= routing.Keys
  {
    map m | m in Admitted(lanes) :: GivenTo(lanes, routing, floor, done, m)
  }

  /** The budgets of the lanes in done that somebody is paid from. */
  ghost function PaidBudgets(lanes: Lanes, routing: map<string, Number>, work: real, done: set<string>): Weights
    requires done <= routing.Keys
  {
    map lane | lane in done :: LaneBudget(lanes, routing, work, lane)
  }

  /** Keys with the value zero add nothing. */
  lemma {:induction false} TotalOver(big: Weights, small: Weights)
    requires small.Keys <= big.Keys
    requires forall k :: k in big ==> big[k] == if k in small then small[k] else 0.0
    ensures Total(big) == Total(small)
    decreases |big|
  {
    if big == map[] {
      assert small == map[] by { assert small.Keys == {}; }
    } else {
      var k :| k in big;
      TotalRemove(big, k);
      if k in small {
        TotalRemove(small, k);
        TotalOver(big - {k}, small - {k});
      } else {
        TotalOver(big - {k}, small);
      }
    }
  }

  lemma LaneAddsUp(lanes: Lanes, routing: map<string, Number>, work: real, lane: string)
    requires lane in routing
    ensures Total(LaneGives(lanes, routing, work, lane)) == LaneBudget(lanes, routing, work, lane)
  {
    var gives := LaneGives(lanes, routing, work, lane);
    if Paid(lanes, lane) {
      var parts := Parts(Budget(routing, work, lane), lanes[lane]);
      assert forall m :: m in lanes[lane] ==> m in Admitted(lanes);
      TotalOver(gives, parts);
      PartsAddUp(Budget(routing, work, lane), lanes[lane]);
    } else {
      TotalZero(gives);
    }
  }

  lemma PortionsMore(lanes: Lanes, routing: map<string, Number>, work: real, done: set<string>, lane: string, m: string)
    requires done <= routing.Keys && lane in routing && lane !in done
    ensures Total(Portions(lanes, routing, work, done + {lane}, m))
         == Total(Portions(lanes, routing, work, done, m)) + Portion(lanes, routing, work, lane, m)
  {
    var before := Portions(lanes, routing, work, done, m);
    assert Portions(lanes, routing, work, done + {lane}, m) == before[lane := Portion(lanes, routing, work, lane, m)];
    TotalUpdate(before, lane, Portion(lanes, routing, work, lane, m));
  }

  lemma PaidMore(lanes: Lanes, routing: map<string, Number>, work: real, done: set<string>, lane: string)
    requires done <= routing.Keys && lane in routing && lane !in done
    ensures Total(PaidBudgets(lanes, routing, work, done + {lane}))
         == Total(PaidBudgets(lanes, routing, work, done)) + LaneBudget(lanes, routing, work, lane)
  {
    var before, own := PaidBudgets(lanes, routing, work, done), LaneBudget(lanes, routing, work, lane);
    assert PaidBudgets(lanes, routing, work, done + {lane}) == before[lane := own];
    TotalUpdate(before, lane, own);
  }

  lemma GivenMore(lanes: Lanes, routing: map<string, Number>, floor: real, done: set<string>, lane: string)
    requires done <= routing.Keys && lane in routing && lane !in done
    ensures Total(Given(lanes, routing, floor, done + {lane}))
         == Total(Given(lanes, routing, floor, done)) + Total(LaneGives(lanes, routing, 1.0 - floor, lane))
  {
    forall m | m in Admitted(lanes)
      ensures Given(lanes, routing, floor, done + {lane})[m]
           == Given(lanes, routing, floor, done)[m] + LaneGives(lanes, routing, 1.0 - floor, lane)[m]
    {
      PortionsMore(lanes, routing, 1.0 - floor, done, lane, m);
    }
    TotalAdd(Given(lanes, routing, floor, done + {lane}), Given(lanes, routing, floor, done),
             LaneGives(lanes, routing, 1.0 - floor, lane));
  }

  lemma FloorAddsUp(lanes: Lanes, routing: map<string, Number>, floor: real)
    ensures Total(Given(lanes, routing, floor, {})) == if Admitted(lanes) == {} then 0.0 else floor
  {
    var given := Given(lanes, routing, floor, {});
    forall m | m in given
      ensures given[m] == FloorShare(lanes, floor)
    {
      assert Portions(lanes, routing, 1.0 - floor, {}, m) == map[];
    }
    TotalSame(given, FloorShare(lanes, floor));
    assert given.Keys == Admitted(lanes);
    if Admitted(lanes) == {} {
      assert given == map[];
    } else {
      WholeScaled(floor, |Admitted(lanes)| as real, Total(given));
    }
  }

  lemma SameMap(a: Weights, b: Weights)
    requires a.Keys == b.Keys && forall k :: k in a ==> a[k] == b[k]
    ensures a == b
  {
  }

  /** What was given is the floor and the budgets of the paid lanes. */
  ghost predicate AddsUp(lanes: Lanes, routing: map<string, Number>, floor: real, done: set<string>)
    requires done <= routing.Keys
  {
    Total(Given(lanes, routing, floor, done))
    == (if Admitted(lanes) == {} then 0.0 else floor) + Total(PaidBudgets(lanes, routing, 1.0 - floor, done))
  }

  lemma NoneAddsUp(lanes: Lanes, routing: map<string, Number>, floor: real)
    ensures AddsUp(lanes, routing, floor, {})
  {
    FloorAddsUp(lanes, routing, floor);
    assert PaidBudgets(lanes, routing, 1.0 - floor, {}) == map[];
  }

  /** Both sums grow by the same x. */
  lemma StepAddsUp(lanes: Lanes, routing: map<string, Number>, floor: real, done: set<string>, more: set<string>, x: real)
    requires done <= more <= routing.Keys && AddsUp(lanes, routing, floor, done)
    requires GivenGrows(lanes, routing, floor, done, more, x) && PaidGrows(lanes, routing, 1.0 - floor, done, more, x)
    ensures AddsUp(lanes, routing, floor, more)
  {
  }

  ghost predicate GivenGrows(lanes: Lanes, routing: map<string, Number>, floor: real, done: set<string>, more: set<string>, x: real)
    requires done <= routing.Keys && more <= routing.Keys
  {
    Total(Given(lanes, routing, floor, more)) == Total(Given(lanes, routing, floor, done)) + x
  }

  ghost predicate PaidGrows(lanes: Lanes, routing: map<string, Number>, work: real, done: set<string>, more: set<string>, x: real)
    requires done <= routing.Keys && more <= routing.Keys
  {
    Total(PaidBudgets(lanes, routing, work, more)) == Total(PaidBudgets(lanes, routing, work, done)) + x
  }

  lemma LaneIsGiven(lanes: Lanes, routing: map<string, Number>, floor: real, done: set<string>, lane: string, x: real)
    requires done <= routing.Keys && lane in routing && lane !in done && x == Total(LaneGives(lanes, routing, 1.0 - floor, lane))
    ensures GivenGrows(lanes, routing, floor, done, done + {lane}, x)
  {
    GivenMore(lanes, routing, floor, done, lane);
  }

  lemma LaneIsPaid(lanes: Lanes, routing: map<string, Number>, work: real, done: set<string>, lane: string, x: real)
    requires done <= routing.Keys && lane in routing && lane !in done && x == LaneBudget(lanes, routing, work, lane)
    ensures PaidGrows(lanes, routing, work, done, done + {lane}, x)
  {
    PaidMore(lanes, routing, work, done, lane);
  }

  lemma BudgetIsGiven(lanes: Lanes, routing: map<string, Number>, floor: real, done: set<string>, lane: string, x: real)
    requires done <= routing.Keys && lane in routing && lane !in done && x == LaneBudget(lanes, routing, 1.0 - floor, lane)
    ensures GivenGrows(lanes, routing, floor, done, done + {lane}, x)
  {
    LaneAddsUp(lanes, routing, 1.0 - floor, lane);
    LaneIsGiven(lanes, routing, floor, done, lane, x);
  }

  lemma LanePays(lanes: Lanes, routing: map<string, Number>, floor: real, done: set<string>, lane: string) returns (x: real)
    requires done <= routing.Keys && lane in routing && lane !in done
    ensures GivenGrows(lanes, routing, floor, done, done + {lane}, x) && PaidGrows(lanes, routing, 1.0 - floor, done, done + {lane}, x)
  {
    x := LaneBudget(lanes, routing, 1.0 - floor, lane);
    BudgetIsGiven(lanes, routing, floor, done, lane, x);
    LaneIsPaid(lanes, routing, 1.0 - floor, done, lane, x);
  }

  lemma OneMoreAddsUp(lanes: Lanes, routing: map<string, Number>, floor: real, done: set<string>, lane: string)
    requires done <= routing.Keys && lane in routing && lane !in done && AddsUp(lanes, routing, floor, done)
    ensures AddsUp(lanes, routing, floor, done + {lane})
  {
    var x := LanePays(lanes, routing, floor, done, lane);
    StepAddsUp(lanes, routing, floor, done, done + {lane}, x);
  }

  lemma {:induction false} GivenAddsUp(lanes: Lanes, routing: map<string, Number>, floor: real, done: set<string>)
    requires done <= routing.Keys
    ensures AddsUp(lanes, routing, floor, done)
    decreases |done|
  {
    if done == {} {
      NoneAddsUp(lanes, routing, floor);
    } else {
      var lane :| lane in done;
      GivenAddsUp(lanes, routing, floor, done - {lane});
      OneMoreAddsUp(lanes, routing, floor, done - {lane}, lane);
      assert done == done - {lane} + {lane};
    }
  }

  lemma PaidAndUnpaid(lanes: Lanes, routing: map<string, Number>, work: real)
    ensures Total(PaidBudgets(lanes, routing, work, routing.Keys)) + Total(Unpaid(lanes, routing, work))
         == if Denominator(routing) > 0.0 then work else 0.0
    ensures Denominator(routing) <= 0.0 ==> Total(PaidBudgets(lanes, routing, work, routing.Keys)) == 0.0
  {
    TotalAdd(Budgets(routing, work), PaidBudgets(lanes, routing, work, routing.Keys), Unpaid(lanes, routing, work));
    if Denominator(routing) > 0.0 {
      BudgetsAddUp(routing, work);
    } else {
      TotalZero(Budgets(routing, work));
      TotalZero(PaidBudgets(lanes, routing, work, routing.Keys));
    }
  }

  /** Every miner's floor share and its parts of all lanes. */
  ghost function AllWeights(lanes: Lanes, routing: map<string, Number>, floor: real): Weights {
    Given(lanes, routing, floor, routing.Keys)
  }

  /** The weights and the burn add up to 1, for every input. */
  lemma Conservation(lanes: Lanes, routing: map<string, Number>, floor: real)
    ensures Total(AllWeights(lanes, routing, floor)) + Burned(lanes, routing, floor) == 1.0
  {
    GivenAddsUp(lanes, routing, floor, routing.Keys);
    PaidAndUnpaid(lanes, routing, 1.0 - floor);
  }

  lemma PortionSign(lanes: Lanes, routing: map<string, Number>, work: real, lane: string, m: string)
    requires lane in routing && work >= 0.0
    ensures Portion(lanes, routing, work, lane, m) >= 0.0 && Budget(routing, work, lane) >= 0.0
  {
    if Denominator(routing) > 0.0 {
      BudgetIs(routing, work, lane);
    }
    if Paid(lanes, lane) && m in lanes[lane] {
      PartIs(Budget(routing, work, lane), lanes[lane], m);
    }
  }

  lemma PortionsSign(lanes: Lanes, routing: map<string, Number>, work: real, m: string)
    requires work >= 0.0
    ensures Total(Portions(lanes, routing, work, routing.Keys, m)) >= 0.0
  {
    var portions := Portions(lanes, routing, work, routing.Keys, m);
    forall lane | lane in portions
      ensures portions[lane] >= 0.0
    {
      PortionSign(lanes, routing, work, lane, m);
    }
    TotalAtLeast(portions);
  }

  lemma GivenToSign(lanes: Lanes, routing: map<string, Number>, floor: real, m: string)
    requires floor <= 1.0
    ensures GivenTo(lanes, routing, floor, routing.Keys, m) >= FloorShare(lanes, floor)
  {
    PortionsSign(lanes, routing, 1.0 - floor, m);
  }

  /** No weight and no burn is below zero when the floor is between 0 and 1. */
  lemma NothingNegative(lanes: Lanes, routing: map<string, Number>, floor: real)
    requires 0.0 <= floor <= 1.0
    ensures FloorShare(lanes, floor) >= 0.0 && Burned(lanes, routing, floor) >= 0.0
    ensures var w := AllWeights(lanes, routing, floor); forall m :: m in w ==> w[m] >= FloorShare(lanes, floor)
  {
    forall m | m in Admitted(lanes)
      ensures AllWeights(lanes, routing, floor)[m] >= FloorShare(lanes, floor)
    {
      GivenToSign(lanes, routing, floor, m);
    }
    FloorSign(lanes, floor);
    BurnSign(lanes, routing, floor);
  }

  lemma FloorSign(lanes: Lanes, floor: real)
    requires floor >= 0.0
    ensures FloorShare(lanes, floor) >= 0.0
  {
    if Admitted(lanes) != {} {
      ShareSign(floor, |Admitted(lanes)|);
    }
  }

  lemma BurnSign(lanes: Lanes, routing: map<string, Number>, floor: real)
    requires 0.0 <= floor <= 1.0
    ensures Burned(lanes, routing, floor) >= 0.0
  {
    UnpaidSign(lanes, routing, 1.0 - floor);
  }

  lemma UnpaidSign(lanes: Lanes, routing: map<string, Number>, work: real)
    requires work >= 0.0
    ensures Total(Unpaid(lanes, routing, work)) >= 0.0
  {
    var unpaid := Unpaid(lanes, routing, work);
    forall lane | lane in unpaid
      ensures unpaid[lane] >= 0.0
    {
      PortionSign(lanes, routing, work, lane, "");
    }
    TotalAtLeast(unpaid);
  }

  lemma ShareSign(floor: real, n: nat)
    requires floor >= 0.0 && n > 0
    ensures floor / n as real >= 0.0
  {
  }

  // ------------------------------------------------------------ the loops

  function Restrict(m: Weights, done: set<string>): Weights
    requires done <= m.Keys
  {
    map k | k in done :: m[k]
  }

  lemma RestrictMore(m: Weights, done: set<string>, k: string)
    requires done <= m.Keys && k in m && k !in done
    ensures Total(Restrict(m, done + {k})) == Total(Restrict(m, done)) + m[k]
  {
    assert Restrict(m, done + {k}) == Restrict(m, done)[k := m[k]];
    TotalUpdate(Restrict(m, done), k, m[k]);
  }

  lemma RestrictEnds(m: Weights)
    ensures Total(Restrict(m, {})) == 0.0 && Restrict(m, m.Keys) == m
  {
    assert Restrict(m, {}) == map[];
  }

  /** The finite positive shares enter the denominator. */
  method SumShares(routing: map<string, Number>) returns (denom: real)
    ensures denom == Denominator(routing)
  {
    denom := 0.0;
    var done, rest := {}, routing.Keys;
    RestrictEnds(Shares(routing));
    while rest != {}
      invariant done !! rest && done + rest == routing.Keys && denom == Total(Restrict(Shares(routing), done))
      decreases |rest|
    {
      var lane :| lane in rest;
      var v := routing[lane];
      RestrictMore(Shares(routing), done, lane);
      if v.Finite? && v.value > 0.0 {
        denom := denom + v.value;
      }
      done, rest := done + {lane}, rest - {lane};
    }
    assert done == Shares(routing).Keys;
  }

  /** The finite scores that are not negative enter the total. */
  method SumScores(miners: map<string, Number>) returns (total: real)
    ensures total == TotalScore(miners)
  {
    total := 0.0;
    var done, rest := {}, miners.Keys;
    RestrictEnds(Scores(miners));
    while rest != {}
      invariant done !! rest && done + rest == miners.Keys && total == Total(Restrict(Scores(miners), done))
      decreases |rest|
    {
      var m :| m in rest;
      var s := miners[m];
      RestrictMore(Scores(miners), done, m);
      if s.Finite? && s.value >= 0.0 {
        total := total + s.value;
      }
      done, rest := done + {m}, rest - {m};
    }
    assert done == Scores(miners).Keys;
  }

  method SumWeights(weights: Weights) returns (total: real)
    ensures total == Total(weights)
  {
    total := 0.0;
    var done, rest := {}, weights.Keys;
    RestrictEnds(weights);
    while rest != {}
      invariant done !! rest && done + rest == weights.Keys && total == Total(Restrict(weights, done))
      decreases |rest|
    {
      var m :| m in rest;
      RestrictMore(weights, done, m);
      total := total + weights[m];
      done, rest := done + {m}, rest - {m};
    }
    assert done == weights.Keys;
  }

  /** The part of a miner in done. */
  ghost function PartIn(budget: real, miners: map<string, Number>, done: set<string>, m: string): real
    requires TotalScore(miners) > 0.0
  {
    if m in done && m in miners then Part(budget, miners, m) else 0.0
  }

  /** What PayLane leaves when the miners in done are paid. */
  ghost predicate PaidUpTo(before: Weights, after: Weights, budget: real, miners: map<string, Number>, done: set<string>)
    requires TotalScore(miners) > 0.0
  {
    && after.Keys == before.Keys
    && forall m :: m in before ==> after[m] == before[m] + PartIn(budget, miners, done, m)
  }

  lemma NoScoreNoPart(budget: real, miners: map<string, Number>, m: string)
    requires m in miners && TotalScore(miners) > 0.0 && ScoreOf(miners[m]) == 0.0
    ensures Part(budget, miners, m) == 0.0
  {
    PartIs(budget, miners, m);
  }

  lemma OnePaid(before: Weights, weights: Weights, budget: real, miners: map<string, Number>, done: set<string>, m: string, inc: real)
    requires TotalScore(miners) > 0.0 && m in miners && m in before && m !in done && inc == Part(budget, miners, m)
    requires PaidUpTo(before, weights, budget, miners, done)
    ensures PaidUpTo(before, weights[m := weights[m] + inc], budget, miners, done + {m})
  {
  }

  /** What a miner with this score gets. */
  method Increment(budget: real, miners: map<string, Number>, m: string, total: real) returns (inc: real)
    requires m in miners && total == TotalScore(miners) > 0.0
    ensures inc == Part(budget, miners, m)
  {
    var s := miners[m];
    if s.Bad? || s.value < 0.0 {
      NoScoreNoPart(budget, miners, m);
      return 0.0;
    }
    inc := budget * s.value / total;
  }

  /** The budget of a lane, miner by miner. */
  method PayLane(before: Weights, budget: real, miners: map<string, Number>, total: real) returns (weights: Weights)
    requires total == TotalScore(miners) > 0.0 && miners.Keys <= before.Keys
    ensures PaidUpTo(before, weights, budget, miners, miners.Keys)
  {
    weights := before;
    var done, rest := {}, miners.Keys;
    while rest != {}
      invariant done !! rest && done + rest == miners.Keys && PaidUpTo(before, weights, budget, miners, done)
      decreases |rest|
    {
      var m :| m in rest;
      var inc := Increment(budget, miners, m, total);
      OnePaid(before, weights, budget, miners, done, m, inc);
      weights := weights[m := weights[m] + inc];
      done, rest := done + {m}, rest - {m};
    }
    assert done == miners.Keys;
  }

  /** Every miner has what the lanes in done give it. */
  ghost predicate Holds(weights: Weights, lanes: Lanes, routing: map<string, Number>, floor: real, done: set<string>)
    requires done <= routing.Keys
  {
    weights.Keys == Admitted(lanes) && forall m :: m in weights ==> weights[m] == GivenTo(lanes, routing, floor, done, m)
  }

  lemma HoldsAll(weights: Weights, lanes: Lanes, routing: map<string, Number>, floor: real)
    requires Holds(weights, lanes, routing, floor, routing.Keys)
    ensures weights == AllWeights(lanes, routing, floor)
  {
    SameMap(weights, AllWeights(lanes, routing, floor));
  }

  lemma GivenToMore(lanes: Lanes, routing: map<string, Number>, floor: real, done: set<string>, lane: string, m: string, part: real)
    requires done <= routing.Keys && lane in routing && lane !in done && Portion(lanes, routing, 1.0 - floor, lane, m) == part
    ensures GivenTo(lanes, routing, floor, done + {lane}, m) == GivenTo(lanes, routing, floor, done, m) + part
  {
    PortionsMore(lanes, routing, 1.0 - floor, done, lane, m);
  }

  lemma ZeroBudget(budget: real, miners: map<string, Number>, m: string)
    requires m in miners && TotalScore(miners) > 0.0 && budget == 0.0
    ensures Part(budget, miners, m) == 0.0
  {
    PartIs(budget, miners, m);
  }

  lemma NoPortion(lanes: Lanes, routing: map<string, Number>, work: real, lane: string, m: string)
    requires lane in routing
    requires !Paid(lanes, lane) || ShareOf(routing[lane]) == 0.0 || Denominator(routing) <= 0.0
    ensures Portion(lanes, routing, work, lane, m) == 0.0
  {
    if Paid(lanes, lane) && m in lanes[lane] {
      if Denominator(routing) > 0.0 {
        BudgetIs(routing, work, lane);
      }
      ZeroBudget(Budget(routing, work, lane), lanes[lane], m);
    }
  }

  /** A lane without a share or without a score changes no weight. */
  lemma LaneSkipped(weights: Weights, lanes: Lanes, routing: map<string, Number>, floor: real, done: set<string>, lane: string)
    requires done <= routing.Keys && lane in routing && lane !in done && Holds(weights, lanes, routing, floor, done)
    requires !Paid(lanes, lane) || ShareOf(routing[lane]) == 0.0 || Denominator(routing) <= 0.0
    ensures Holds(weights, lanes, routing, floor, done + {lane})
  {
    forall m | m in weights
      ensures weights[m] == GivenTo(lanes, routing, floor, done + {lane}, m)
    {
      SkippedFor(lanes, routing, floor, done, lane, m);
    }
  }

  lemma SkippedFor(lanes: Lanes, routing: map<string, Number>, floor: real, done: set<string>, lane: string, m: string)
    requires done <= routing.Keys && lane in routing && lane !in done
    requires !Paid(lanes, lane) || ShareOf(routing[lane]) == 0.0 || Denominator(routing) <= 0.0
    ensures GivenTo(lanes, routing, floor, done + {lane}, m) == GivenTo(lanes, routing, floor, done, m)
  {
    NoPortion(lanes, routing, 1.0 - floor, lane, m);
    GivenToMore(lanes, routing, floor, done, lane, m, 0.0);
  }

  lemma PortionPaid(lanes: Lanes, routing: map<string, Number>, work: real, lane: string, m: string, budget: real)
    requires lane in routing && Paid(lanes, lane) && budget == Budget(routing, work, lane)
    ensures Portion(lanes, routing, work, lane, m) == PartIn(budget, lanes[lane], lanes[lane].Keys, m)
  {
  }

  lemma PaidTo(lanes: Lanes, routing: map<string, Number>, floor: real, done: set<string>, lane: string, m: string, budget: real)
    requires done <= routing.Keys && lane in routing && lane !in done && Paid(lanes, lane)
    requires budget == Budget(routing, 1.0 - floor, lane)
    ensures GivenTo(lanes, routing, floor, done + {lane}, m)
         == GivenTo(lanes, routing, floor, done, m) + PartIn(budget, lanes[lane], lanes[lane].Keys, m)
  {
    PortionPaid(lanes, routing, 1.0 - floor, lane, m, budget);
    GivenToMore(lanes, routing, floor, done, lane, m, PartIn(budget, lanes[lane], lanes[lane].Keys, m));
  }

  lemma LanePaid(before: Weights, after: Weights, lanes: Lanes, routing: map<string, Number>, floor: real, done: set<string>,
                 lane: string, budget: real)
    requires done <= routing.Keys && lane in routing && lane !in done && Paid(lanes, lane)
    requires Holds(before, lanes, routing, floor, done) && budget == Budget(routing, 1.0 - floor, lane)
    requires PaidUpTo(before, after, budget, lanes[lane], lanes[lane].Keys)
    ensures Holds(after, lanes, routing, floor, done + {lane})
  {
    forall m | m in after
      ensures after[m] == GivenTo(lanes, routing, floor, done + {lane}, m)
    {
      PaidTo(lanes, routing, floor, done, lane, m, budget);
    }
  }

  lemma {:induction false} NoShares(weights: Weights, lanes: Lanes, routing: map<string, Number>, floor: real, done: set<string>)
    requires done <= routing.Keys && Denominator(routing) <= 0.0 && Holds(weights, lanes, routing, floor, {})
    ensures Holds(weights, lanes, routing, floor, done)
    decreases |done|
  {
    if done != {} {
      var lane :| lane in done;
      NoShares(weights, lanes, routing, floor, done - {lane});
      LaneSkipped(weights, lanes, routing, floor, done - {lane}, lane);
      assert done == done - {lane} + {lane};
    }
  }

  lemma EmptyLane(lanes: Lanes, lane: string)
    ensures lane in lanes && lanes[lane] == map[] ==> !Paid(lanes, lane)
  {
    if lane in lanes && lanes[lane] == map[] {
      assert Scores(lanes[lane]) == map[];
    }
  }

  /** The total score of a lane, 0 for one that has no miners. */
  method LaneScore(lanes: Lanes, lane: string) returns (total: real)
    ensures total > 0.0 <==> Paid(lanes, lane)
    ensures total > 0.0 ==> total == TotalScore(lanes[lane])
  {
    EmptyLane(lanes, lane);
    if lane !in lanes || lanes[lane] == map[] {
      return 0.0;
    }
    total := SumScores(lanes[lane]);
  }

  lemma InLane(lanes: Lanes, lane: string)
    requires lane in lanes
    ensures lanes[lane].Keys <= Admitted(lanes)
  {
  }

  lemma BudgetOf(routing: map<string, Number>, work: real, lane: string, budget: real)
    requires lane in routing && routing[lane].Finite? && routing[lane].value > 0.0 && Denominator(routing) > 0.0
    requires budget == work * routing[lane].value / Denominator(routing)
    ensures budget == Budget(routing, work, lane)
  {
  }

  /** One lane: its budget to its miners, or nothing. */
  method VisitLane(before: Weights, lanes: Lanes, routing: map<string, Number>, work: real, denom: real, lane: string,
                   ghost floor: real, ghost done: set<string>) returns (weights: Weights)
    requires work == 1.0 - floor && denom == Denominator(routing) > 0.0
    requires done <= routing.Keys && lane in routing && lane !in done && Holds(before, lanes, routing, floor, done)
    ensures Holds(weights, lanes, routing, floor, done + {lane})
  {
    var share := routing[lane];
    var total := LaneScore(lanes, lane);
    if share.Bad? || share.value <= 0.0 || total <= 0.0 {
      LaneSkipped(before, lanes, routing, floor, done, lane);
      return before;
    }
    var budget := work * share.value / denom;
    BudgetOf(routing, work, lane, budget);
    InLane(lanes, lane);
    weights := PayLane(before, budget, lanes[lane], total);
    LanePaid(before, weights, lanes, routing, floor, done, lane, budget);
  }

  /** All lanes, after the floor. */
  method PayLanes(start: Weights, lanes: Lanes, routing: map<string, Number>, floor: real, denom: real)
    returns (weights: Weights)
    requires denom == Denominator(routing) > 0.0 && Holds(start, lanes, routing, floor, {})
    ensures Holds(weights, lanes, routing, floor, routing.Keys)
  {
    weights := start;
    var done, rest := {}, routing.Keys;
    while rest != {}
      invariant done !! rest && done + rest == routing.Keys && Holds(weights, lanes, routing, floor, done)
      decreases |rest|
    {
      var lane :| lane in rest;
      weights := VisitLane(weights, lanes, routing, 1.0 - floor, denom, lane, floor, done);
      done, rest := done + {lane}, rest - {lane};
    }
    assert done == routing.Keys;
  }

  /** The miners of all lanes. */
  method Admit(lanes: Lanes) returns (admitted: set<string>)
    ensures admitted == Admitted(lanes)
  {
    admitted := {};
    var done, rest := {}, lanes.Keys;
    while rest != {}
      invariant done !! rest && done + rest == lanes.Keys
      invariant admitted == set lane, m | lane in done && m in lanes[lane] :: m
      decreases |rest|
    {
      var lane :| lane in rest;
      admitted := admitted + lanes[lane].Keys;
      done, rest := done + {lane}, rest - {lane};
    }
    assert done == lanes.Keys;
  }

  lemma FloorOnly(weights: Weights, lanes: Lanes, routing: map<string, Number>, floor: real)
    requires weights.Keys == Admitted(lanes) && forall m :: m in weights ==> weights[m] == FloorShare(lanes, floor)
    ensures Holds(weights, lanes, routing, floor, {})
  {
    forall m | m in weights
      ensures weights[m] == GivenTo(lanes, routing, floor, {}, m)
    {
      assert Portions(lanes, routing, 1.0 - floor, {}, m) == map[];
    }
  }

  /** apply_routing: weights that are not negative and add up to 1 with the burn. */
  method ApplyRouting(lanes: Lanes, routing: map<string, Number>, floor: Number) returns (weights: Weights, burn: real)
    ensures weights == AllWeights(lanes, routing, Clamped(floor)) && burn == Burned(lanes, routing, Clamped(floor))
    ensures (forall m :: m in weights ==> weights[m] >= 0.0) && burn >= 0.0 && Total(weights) + burn == 1.0
  {
    var f := Clamped(floor);
    var admitted := Admit(lanes);
    var share := if admitted == {} then 0.0 else f / |admitted| as real;
    weights := map m | m in admitted :: share;
    FloorOnly(weights, lanes, routing, f);
    var denom := SumShares(routing);
    if denom > 0.0 {
      weights := PayLanes(weights, lanes, routing, f, denom);
    } else {
      NoShares(weights, lanes, routing, f, routing.Keys);
    }
    HoldsAll(weights, lanes, routing, f);
    NothingNegative(lanes, routing, f);
    Conservation(lanes, routing, f);
    var sum := SumWeights(weights);
    burn := 1.0 - sum;
  }
}
