/**
 * The greedy scorer of Engine/utility_calculator.py. A move's utility is
 * accuracy times power, times 1.2 when the move shares a type with its user
 * (STAB), times the type chart's multiplier against each of the defender's
 * types, times the attack/defence stat ratio its category selects. The scored
 * list is then ranked by a stable descending sort. Utilities are exact reals;
 * the type chart is a parameter.
 */
module UtilityCalculator {
  import opened Common
  import opened MoveEntity
  import opened PokemonEntity
  import opened Sorting

  /** The values `TypeChart.get_type_effectiveness` gives. */
  type Multiplier = r: real | r == 0.0 || r == 0.5 || r == 1.0 || r == 2.0 witness 1.0

  /** `TypeChart.get_type_effectiveness(string_to_type(move type), string_to_type(defender type))`. */
  type TypeChart = (Option<string>, string) -> Multiplier

  const StabBonus: real := 1.2

  /** `x *= y` on a utility; Python's float product, taken here as exact. */
  function Times(x: real, y: real): real {
    x * y
  }

  /** `utility *= multiplier` for each defender type in turn. */
  function ApplyChart(u: real, chart: TypeChart, moveType: Option<string>, types: seq<string>): real {
    if |types| == 0 then u
    else Times(ApplyChart(u, chart, moveType, types[..|types| - 1]), chart(moveType, types[|types| - 1]))
  }

  /** `attacker[ak] / defender[dk]`: a missing key raises KeyError (the attacker's
      is looked up first), a zero divisor ZeroDivisionError. */
  function StatRatio(attacker: map<string, int>, ak: string, defender: map<string, int>, dk: string): (r: Result<real>)
    ensures ak !in attacker ==> r == Err(KeyError)
    ensures ak in attacker && dk !in defender ==> r == Err(KeyError)
    ensures ak in attacker && dk in defender && defender[dk] == 0 ==> r == Err(ZeroDivisionError)
    ensures r.Ok? <==> ak in attacker && dk in defender && defender[dk] != 0
  {
    if ak !in attacker || dk !in defender then Err(KeyError)
    else if defender[dk] == 0 then Err(ZeroDivisionError)
    else Ok(attacker[ak] as real / defender[dk] as real)
  }

  /** The move shares a type with its user. */
  predicate HasStab(attacker: Pokemon, m: Move) {
    m.moveType.Some? && m.moveType.value in attacker.types
  }

  /** Accuracy times power, with the STAB bonus. */
  function BaseUtility(attacker: Pokemon, m: Move): real {
    var u := Times(m.accu, m.power as real);
    if HasStab(attacker, m) then Times(u, StabBonus) else u
  }

  /** One iteration of the scoring loop: the base utility, through the type chart,
      then scaled by `atk/def` for a physical move and `spa/spd` for a special one.
      Reading `types[0]` for logging raises IndexError when the defender has no
      type, before any stat is read. */
  function MoveUtility(attacker: Pokemon, m: Move, defender: Pokemon, chart: TypeChart): (r: Result<real>)
    ensures |defender.types| == 0 ==> r == Err(IndexError)
    ensures |defender.types| > 0 && m.category == Physical ==>
      (r.Ok? <==> "atk" in attacker.stats && "def" in defender.stats && defender.stats["def"] != 0)
    ensures |defender.types| > 0 && m.category == Special ==>
      (r.Ok? <==> "spa" in attacker.stats && "spd" in defender.stats && defender.stats["spd"] != 0)
    ensures |defender.types| > 0 && m.category != Physical && m.category != Special ==> r.Ok?
    ensures r.Err? ==> r.error == IndexError || r.error == KeyError || r.error == ZeroDivisionError
  {
    if |defender.types| == 0 then Err(IndexError)
    else
      var u := ApplyChart(BaseUtility(attacker, m), chart, m.moveType, defender.types);
      if m.category == Physical then
        match StatRatio(attacker.stats, "atk", defender.stats, "def")
        case Err(e) => Err(e)
        case Ok(q) => Ok(Times(u, q))
      else if m.category == Special then
        match StatRatio(attacker.stats, "spa", defender.stats, "spd")
        case Err(e) => Err(e)
        case Ok(q) => Ok(Times(u, q))
      else Ok(u)
  }

  /** With the product taken type by type, a type immune to the move zeroes it. */
  lemma {:induction false} ApplyChartImmune(u: real, chart: TypeChart, moveType: Option<string>, types: seq<string>)
    requires exists i :: 0 <= i < |types| && chart(moveType, types[i]) == 0.0
    ensures ApplyChart(u, chart, moveType, types) == 0.0
  {
    var n := |types|;
    var init := types[..n - 1];
    if chart(moveType, types[n - 1]) != 0.0 {
      var i :| 0 <= i < n && chart(moveType, types[i]) == 0.0;
      assert init[i] == types[i];
      ApplyChartImmune(u, chart, moveType, init);
    }
  }

  /** Types that are all neutral to the move leave the utility as it was. */
  lemma {:induction false} ApplyChartNeutral(u: real, chart: TypeChart, moveType: Option<string>, types: seq<string>)
    requires forall i :: 0 <= i < |types| ==> chart(moveType, types[i]) == 1.0
    ensures ApplyChart(u, chart, moveType, types) == u
  {
    if |types| > 0 {
      var init := types[..|types| - 1];
      assert forall i :: 0 <= i < |init| ==> init[i] == types[i];
      ApplyChartNeutral(u, chart, moveType, init);
    }
  }

  /** The multipliers are never negative, so the chart keeps the utility's sign. */
  lemma {:induction false} ApplyChartSign(u: real, chart: TypeChart, moveType: Option<string>, types: seq<string>)
    ensures u >= 0.0 ==> ApplyChart(u, chart, moveType, types) >= 0.0
    ensures u <= 0.0 ==> ApplyChart(u, chart, moveType, types) <= 0.0
  {
    if |types| > 0 {
      ApplyChartSign(u, chart, moveType, types[..|types| - 1]);
    }
  }

  /** The chart scales linearly: a factor on the starting utility comes out in front. */
  lemma {:induction false} ApplyChartScales(k: real, u: real, chart: TypeChart, moveType: Option<string>, types: seq<string>)
    ensures ApplyChart(Times(u, k), chart, moveType, types) == Times(ApplyChart(u, chart, moveType, types), k)
  {
    if |types| > 0 {
      var init := types[..|types| - 1];
      var m: real := chart(moveType, types[|types| - 1]);
      ApplyChartScales(k, u, chart, moveType, init);
      var a := ApplyChart(u, chart, moveType, init);
      TimesSwap(a, k, m);
    }
  }

  lemma TimesSwap(a: real, b: real, c: real)
    ensures Times(Times(a, b), c) == Times(Times(a, c), b)
  {
  }

  /** A type immune to the move scores it 0, whatever the stats. */
  lemma ImmuneMoveScoresZero(attacker: Pokemon, m: Move, defender: Pokemon, chart: TypeChart)
    requires exists i :: 0 <= i < |defender.types| && chart(m.moveType, defender.types[i]) == 0.0
    requires MoveUtility(attacker, m, defender, chart).Ok?
    ensures MoveUtility(attacker, m, defender, chart).value == 0.0
  {
    ApplyChartImmune(BaseUtility(attacker, m), chart, m.moveType, defender.types);
  }

  /** STAB: the same move used by a Pokemon of its type scores 1.2 times what it
      scores when used by one with the same stats but not of its type. */
  lemma StabScoresMore(withType: Pokemon, without: Pokemon, m: Move, defender: Pokemon, chart: TypeChart)
    requires HasStab(withType, m) && !HasStab(without, m) && withType.stats == without.stats
    ensures MoveUtility(withType, m, defender, chart).Ok? == MoveUtility(without, m, defender, chart).Ok?
    ensures MoveUtility(withType, m, defender, chart).Ok? ==>
      MoveUtility(withType, m, defender, chart).value == Times(MoveUtility(without, m, defender, chart).value, StabBonus)
  {
    var u := Times(m.accu, m.power as real);
    ApplyChartScales(StabBonus, u, chart, m.moveType, defender.types);
    if |defender.types| > 0 {
      var a := ApplyChart(u, chart, m.moveType, defender.types);
      if m.category == Physical && MoveUtility(without, m, defender, chart).Ok? {
        var q := StatRatio(without.stats, "atk", defender.stats, "def").value;
        TimesSwap(a, StabBonus, q);
      } else if m.category == Special && MoveUtility(without, m, defender, chart).Ok? {
        var q := StatRatio(without.stats, "spa", defender.stats, "spd").value;
        TimesSwap(a, StabBonus, q);
      }
    }
  }

  /** A move of neither physical nor special category is scored without reading any
      stat: Pokemon that differ only in stats give it the same utility. */
  lemma StatusIgnoresStats(a1: Pokemon, a2: Pokemon, m: Move, d1: Pokemon, d2: Pokemon, chart: TypeChart)
    requires m.category != Physical && m.category != Special
    requires a1.types == a2.types && d1.types == d2.types
    ensures MoveUtility(a1, m, d1, chart) == MoveUtility(a2, m, d2, chart)
  {
  }

  /** The formula in its plainest case: a physical move without STAB against types
      all neutral to it scores accuracy times power times `atk / def`. */
  lemma NeutralPhysicalScore(attacker: Pokemon, m: Move, defender: Pokemon, chart: TypeChart)
    requires m.category == Physical && !HasStab(attacker, m)
    requires forall i :: 0 <= i < |defender.types| ==> chart(m.moveType, defender.types[i]) == 1.0
    requires MoveUtility(attacker, m, defender, chart).Ok?
    ensures MoveUtility(attacker, m, defender, chart).value
         == Times(Times(m.accu, m.power as real), attacker.stats["atk"] as real / defender.stats["def"] as real)
  {
    ApplyChartNeutral(BaseUtility(attacker, m), chart, m.moveType, defender.types);
  }

  /** The special branch in the same plain case: accuracy times power times `spa / spd`. */
  lemma NeutralSpecialScore(attacker: Pokemon, m: Move, defender: Pokemon, chart: TypeChart)
    requires m.category == Special && !HasStab(attacker, m)
    requires forall i :: 0 <= i < |defender.types| ==> chart(m.moveType, defender.types[i]) == 1.0
    requires MoveUtility(attacker, m, defender, chart).Ok?
    ensures MoveUtility(attacker, m, defender, chart).value
         == Times(Times(m.accu, m.power as real), attacker.stats["spa"] as real / defender.stats["spd"] as real)
  {
    ApplyChartNeutral(BaseUtility(attacker, m), chart, m.moveType, defender.types);
  }

  /** With non-negative accuracy, power and stats, no move scores below 0. */
  lemma UtilityNonNegative(attacker: Pokemon, m: Move, defender: Pokemon, chart: TypeChart)
    requires m.accu >= 0.0 && m.power >= 0
    requires forall k :: k in attacker.stats ==> attacker.stats[k] >= 0
    requires forall k :: k in defender.stats ==> defender.stats[k] >= 0
    requires MoveUtility(attacker, m, defender, chart).Ok?
    ensures MoveUtility(attacker, m, defender, chart).value >= 0.0
  {
    var b := BaseUtility(attacker, m);
    assert Times(m.accu, m.power as real) >= 0.0;
    ApplyChartSign(b, chart, m.moveType, defender.types);
  }

  /** The moves paired with their positions. */
  function Enumerate(moves: seq<Move>): (r: seq<(int, Move)>)
    ensures |r| == |moves| && forall i :: 0 <= i < |moves| ==> r[i] == (i, moves[i])
  {
    seq(|moves|, i requires 0 <= i < |moves| => (i, moves[i]))
  }

  /** The tuple the loop appends for the move at a position. */
  function ScoreAt(attacker: Pokemon, defender: Pokemon, chart: TypeChart): ((int, Move)) -> Result<Scored<Move>> {
    (p: (int, Move)) => match MoveUtility(attacker, p.1, defender, chart)
         case Err(e) => Err(e)
         case Ok(u) => Ok(Scored(p.0, p.1, u))
  }

  /** The unsorted `move_utilities` list, or the error of the first move that fails. */
  function RawUtilities(attacker: Pokemon, moves: seq<Move>, defender: Pokemon, chart: TypeChart): Result<seq<Scored<Move>>> {
    MapAll(ScoreAt(attacker, defender, chart), Enumerate(moves))
  }

  /** The contents of `RawUtilities`: position `i` holds move `i` with its utility. */
  lemma RawUtilitiesContents(attacker: Pokemon, moves: seq<Move>, defender: Pokemon, chart: TypeChart)
    ensures var raw := RawUtilities(attacker, moves, defender, chart);
      && (raw.Ok? <==> forall i :: 0 <= i < |moves| ==> MoveUtility(attacker, moves[i], defender, chart).Ok?)
      && (raw.Ok? ==> |raw.value| == |moves|)
      && (raw.Ok? ==> forall i :: 0 <= i < |moves| ==>
             raw.value[i] == Scored(i, moves[i], MoveUtility(attacker, moves[i], defender, chart).value))
  {
    var f := ScoreAt(attacker, defender, chart);
    var xs := Enumerate(moves);
    assert forall i :: 0 <= i < |moves| ==> f(xs[i]).Ok? == MoveUtility(attacker, moves[i], defender, chart).Ok?;
  }

  /** `evaluate_attacking_move_utility`: a missing attacker or defender, or an
      attacker that is the defender, is a ValueError; otherwise every move is scored
      (the first failure propagates) and a list of more than one is ranked. */
  function AttackingUtilities(attacker: Pokemon?, moves: seq<Move>, defender: Pokemon?, chart: TypeChart)
    : (r: Result<seq<Scored<Move>>>)
    ensures attacker == null || defender == null || attacker == defender ==> r == Err(ValueError)
    ensures attacker != null && defender != null && attacker != defender ==>
      (r.Ok? <==> forall i :: 0 <= i < |moves| ==> MoveUtility(attacker, moves[i], defender, chart).Ok?)
    ensures r.Ok? ==> |r.value| == |moves|
  {
    if attacker == null || defender == null || attacker == defender then Err(ValueError)
    else
      RawUtilitiesContents(attacker, moves, defender, chart);
      match RawUtilities(attacker, moves, defender, chart)
      case Err(e) => Err(e)
      case Ok(raw) => if 1 < |raw| then Ok(SortDesc(raw)) else Ok(raw)
  }

  /** The ranking: one entry per move, each with the move's own utility, no position
      twice (so the result is a permutation of the moves), non-increasing in utility,
      and moves of equal utility in their input order. */
  lemma AttackingUtilitiesRanked(attacker: Pokemon?, moves: seq<Move>, defender: Pokemon?, chart: TypeChart)
    requires AttackingUtilities(attacker, moves, defender, chart).Ok?
    ensures attacker != null && defender != null
    ensures var r := AttackingUtilities(attacker, moves, defender, chart).value;
      && SortedDesc(r) && StableOrder(r)
      && (forall i, j :: 0 <= i < j < |r| ==> r[i].index != r[j].index)
      && (forall k :: 0 <= k < |moves| ==> Scored(k, moves[k], MoveUtility(attacker, moves[k], defender, chart).value) in r)
      && forall j :: 0 <= j < |r| ==>
           && 0 <= r[j].index < |moves|
           && r[j].item == moves[r[j].index]
           && MoveUtility(attacker, r[j].item, defender, chart) == Ok(r[j].utility)
  {
    RawUtilitiesContents(attacker, moves, defender, chart);
    var raw := RawUtilities(attacker, moves, defender, chart).value;
    var r := AttackingUtilities(attacker, moves, defender, chart).value;
    assert IndicesIncreasing(raw);
    SortDescCorrect(raw);
    SortDescPermutesIndices(raw);
    if 1 < |raw| {
      assert r == SortDesc(raw);
    } else {
      assert r == raw;
    }
    forall k | 0 <= k < |moves|
      ensures Scored(k, moves[k], MoveUtility(attacker, moves[k], defender, chart).value) in r
    {
      assert raw[k] in r;
    }
  }

  /** A single move is scored on its own: the list is its one tuple. */
  lemma SingleMoveUtilities(attacker: Pokemon, m: Move, defender: Pokemon, chart: TypeChart)
    requires attacker != defender
    ensures var r := AttackingUtilities(attacker, [m], defender, chart);
      && (r.Ok? <==> MoveUtility(attacker, m, defender, chart).Ok?)
      && (r.Err? ==> r.error == MoveUtility(attacker, m, defender, chart).error)
      && (r.Ok? ==> r.value == [Scored(0, m, MoveUtility(attacker, m, defender, chart).value)])
  {
    RawUtilitiesContents(attacker, [m], defender, chart);
    var raw := RawUtilities(attacker, [m], defender, chart);
    if raw.Err? {
      MapAllFirstError(ScoreAt(attacker, defender, chart), Enumerate([m]), 0);
    }
  }

  /** Two moves of equal utility keep their input order: stability in action. */
  lemma TiedMovesKeepOrder(attacker: Pokemon, m1: Move, m2: Move, defender: Pokemon, chart: TypeChart)
    requires attacker != defender
    requires MoveUtility(attacker, m1, defender, chart).Ok?
    requires MoveUtility(attacker, m1, defender, chart) == MoveUtility(attacker, m2, defender, chart)
    ensures var u := MoveUtility(attacker, m1, defender, chart).value;
      AttackingUtilities(attacker, [m1, m2], defender, chart) == Ok([Scored(0, m1, u), Scored(1, m2, u)])
  {
    var u := MoveUtility(attacker, m1, defender, chart).value;
    RawUtilitiesContents(attacker, [m1, m2], defender, chart);
    var raw := RawUtilities(attacker, [m1, m2], defender, chart).value;
    assert raw == [Scored(0, m1, u), Scored(1, m2, u)];
    assert SortDesc(raw[1..]) == Insert(raw[1], SortDesc([]));
    assert SortDesc(raw) == Insert(raw[0], [raw[1]]);
    assert Insert(raw[0], [raw[1]]) == [raw[0]] + [raw[1]] == raw;
    assert AttackingUtilities(attacker, [m1, m2], defender, chart) == Ok(SortDesc(raw));
  }

  /** A later move that scores strictly more is ranked first. */
  lemma BetterMoveRankedFirst(attacker: Pokemon, m1: Move, m2: Move, defender: Pokemon, chart: TypeChart)
    requires attacker != defender
    requires MoveUtility(attacker, m1, defender, chart).Ok? && MoveUtility(attacker, m2, defender, chart).Ok?
    requires MoveUtility(attacker, m1, defender, chart).value < MoveUtility(attacker, m2, defender, chart).value
    ensures var u1 := MoveUtility(attacker, m1, defender, chart).value;
      var u2 := MoveUtility(attacker, m2, defender, chart).value;
      AttackingUtilities(attacker, [m1, m2], defender, chart) == Ok([Scored(1, m2, u2), Scored(0, m1, u1)])
  {
    var u1 := MoveUtility(attacker, m1, defender, chart).value;
    var u2 := MoveUtility(attacker, m2, defender, chart).value;
    RawUtilitiesContents(attacker, [m1, m2], defender, chart);
    var raw := RawUtilities(attacker, [m1, m2], defender, chart).value;
    assert raw == [Scored(0, m1, u1), Scored(1, m2, u2)];
    assert SortDesc(raw[1..]) == Insert(raw[1], SortDesc([]));
    assert SortDesc(raw) == Insert(raw[0], [raw[1]]);
    assert [raw[1]][1..] == [];
    assert Insert(raw[0], [raw[1]]) == [raw[1]] + Insert(raw[0], []);
    assert Insert(raw[0], []) == [raw[0]];
    assert [raw[1]] + [raw[0]] == [Scored(1, m2, u2), Scored(0, m1, u1)];
    assert AttackingUtilities(attacker, [m1, m2], defender, chart) == Ok(SortDesc(raw));
  }

  /** Extending the defender types by one multiplies in one more factor. */
  lemma ApplyChartStep(u: real, chart: TypeChart, moveType: Option<string>, types: seq<string>, t: int)
    requires 0 <= t < |types|
    ensures ApplyChart(u, chart, moveType, types[..t + 1])
         == Times(ApplyChart(u, chart, moveType, types[..t]), chart(moveType, types[t]))
  {
    assert types[..t + 1][..t] == types[..t];
  }

  /** The body of the scoring loop for one move: the utility is built up factor by
      factor, the defender types one at a time. */
  method ScoreMove(attacker: Pokemon, move: Move, defender: Pokemon, chart: TypeChart) returns (r: Result<real>)
    ensures r == MoveUtility(attacker, move, defender, chart)
  {
    var utility := Times(move.accu, move.power as real);
    if move.moveType.Some? && move.moveType.value in attacker.types {
      utility := Times(utility, StabBonus);
    }
    if |defender.types| == 0 {
      return Err(IndexError);
    }
    ghost var base := BaseUtility(attacker, move);
    assert utility == base;
    for t := 0 to |defender.types|
      invariant utility == ApplyChart(base, chart, move.moveType, defender.types[..t])
    {
      ApplyChartStep(base, chart, move.moveType, defender.types, t);
      utility := Times(utility, chart(move.moveType, defender.types[t]));
    }
    assert defender.types[..|defender.types|] == defender.types;
    if move.category == Physical {
      if "atk" !in attacker.stats || "def" !in defender.stats {
        return Err(KeyError);
      }
      if defender.stats["def"] == 0 {
        return Err(ZeroDivisionError);
      }
      utility := Times(utility, attacker.stats["atk"] as real / defender.stats["def"] as real);
    } else if move.category == Special {
      if "spa" !in attacker.stats || "spd" !in defender.stats {
        return Err(KeyError);
      }
      if defender.stats["spd"] == 0 {
        return Err(ZeroDivisionError);
      }
      utility := Times(utility, attacker.stats["spa"] as real / defender.stats["spd"] as real);
    }
    r := Ok(utility);
  }

  /** The scoring loop, then the ranking of a list of more than one entry. */
  method EvaluateAttackingMoveUtility(attacker: Pokemon?, moves: seq<Move>, defender: Pokemon?, chart: TypeChart)
    returns (r: Result<seq<Scored<Move>>>)
    ensures r == AttackingUtilities(attacker, moves, defender, chart)
  {
    if attacker == null || defender == null || attacker == defender {
      return Err(ValueError);
    }
    var moveUtilities: seq<Scored<Move>> := [];
    for index := 0 to |moves|
      invariant |moveUtilities| == index
      invariant forall j :: 0 <= j < index ==>
        ScoreAt(attacker, defender, chart)(Enumerate(moves)[j]) == Ok(moveUtilities[j])
    {
      var utility := ScoreMove(attacker, moves[index], defender, chart);
      if utility.Err? {
        MapAllFirstError(ScoreAt(attacker, defender, chart), Enumerate(moves), index);
        return Err(utility.error);
      }
      moveUtilities := moveUtilities + [Scored(index, moves[index], utility.value)];
    }
    MapAllValues(ScoreAt(attacker, defender, chart), Enumerate(moves), moveUtilities);
    if 1 < |moveUtilities| {
      moveUtilities := SortDesc(moveUtilities);
    }
    r := Ok(moveUtilities);
  }

  // ---------------------------------------------------------------------
  // The enemy's candidate moves

  const PotentialName := "potential"
  const PotentialPp := 10
  const PotentialPower := 60
  const PotentialAccuracy: real := 100.0

  /** The synthetic move `create_potential_moves` builds for one of the enemy's types. */
  function PotentialMove(t: string, category: Category): MoveView {
    MoveView(PotentialName, PotentialPp, false, Facts(Some(t), PotentialPower, PotentialAccuracy, 0), category)
  }

  /** The better attacking stat decides the category, ties going to Physical;
      a missing `atk` or `spa` raises KeyError. */
  function BetterCategory(stats: map<string, int>): (r: Result<Category>)
    ensures r.Err? <==> "atk" !in stats || "spa" !in stats
    ensures r.Err? ==> r.error == KeyError
    ensures r.Ok? ==> (r.value == Special <==> stats["atk"] < stats["spa"])
    ensures r.Ok? ==> r.value == Special || r.value == Physical
  {
    if "atk" !in stats || "spa" !in stats then Err(KeyError)
    else if stats["atk"] < stats["spa"] then Ok(Special)
    else Ok(Physical)
  }

  /** What `create_potential_moves` returns: one synthetic move per enemy type, in
      type order; the stats are only read when there is a type. */
  function PotentialMoves(enemy: Pokemon): (r: Result<seq<MoveView>>)
    ensures |enemy.types| == 0 ==> r == Ok([])
    ensures |enemy.types| > 0 ==> (r.Ok? <==> BetterCategory(enemy.stats).Ok?)
    ensures r.Err? ==> r.error == KeyError
    ensures r.Ok? ==> |r.value| == |enemy.types|
    ensures r.Ok? ==> forall i :: 0 <= i < |enemy.types| ==>
      r.value[i] == PotentialMove(enemy.types[i], BetterCategory(enemy.stats).value)
  {
    if |enemy.types| == 0 then Ok([])
    else
      match BetterCategory(enemy.stats)
      case Err(e) => Err(e)
      case Ok(c) => Ok(seq(|enemy.types|, i requires 0 <= i < |enemy.types| => PotentialMove(enemy.types[i], c)))
  }

  /** A synthetic move always carries its user's type, so it starts from
      100 * 60 * 1.2 = 7200 before the chart and the stats. */
  lemma PotentialMoveBase(enemy: Pokemon, m: Move, i: int)
    requires 0 <= i < |enemy.types|
    requires m.moveType == Some(enemy.types[i]) && m.power == PotentialPower && m.accu == PotentialAccuracy
    ensures HasStab(enemy, m)
    ensures BaseUtility(enemy, m) == 7200.0
  {
  }

  /** `create_potential_moves`: the loop over the enemy's types, building one fresh
      move per type. */
  method CreatePotentialMoves(enemy: Pokemon) returns (r: Result<seq<Move>>)
    ensures r.Ok? <==> PotentialMoves(enemy).Ok?
    ensures r.Err? ==> r.error == PotentialMoves(enemy).error
    ensures r.Ok? ==> Views(r.value) == PotentialMoves(enemy).value
    ensures r.Ok? ==> Distinct(r.value) && forall i :: 0 <= i < |r.value| ==> fresh(r.value[i])
  {
    var potentialMoves: seq<Move> := [];
    for i := 0 to |enemy.types|
      invariant |potentialMoves| == i && Distinct(potentialMoves)
      invariant i > 0 ==> BetterCategory(enemy.stats).Ok?
      invariant forall j :: 0 <= j < i ==> fresh(potentialMoves[j])
      invariant forall j :: 0 <= j < i ==> potentialMoves[j].View() == PotentialMove(enemy.types[j], BetterCategory(enemy.stats).value)
    {
      if "atk" !in enemy.stats || "spa" !in enemy.stats {
        return Err(KeyError);
      }
      var category := if enemy.stats["atk"] < enemy.stats["spa"] then Special else Physical;
      var potentialMove := new Move(PotentialName, PotentialPp, false,
                                    Facts(Some(enemy.types[i]), PotentialPower, PotentialAccuracy, 0), category);
      potentialMoves := potentialMoves + [potentialMove];
    }
    r := Ok(potentialMoves);
  }

  /** `evaluate_enemy_move`: the enemy's known moves, followed by its synthetic moves
      when fewer than `MaxMoves - 1` moves are known, scored against the bot's active
      Pokemon. A missing enemy, or a bot Pokemon (which has no `known_moves`),
      raises AttributeError. `pool` is the list that was scored; nothing is modified. */
  method EvaluateEnemyMove(active: Pokemon?, enemy: Pokemon?, chart: TypeChart)
    returns (r: Result<seq<Scored<Move>>>, ghost pool: seq<Move>)
    ensures enemy == null || enemy.role.Bot? ==> r == Err(AttributeError)
    ensures enemy != null && enemy.role.Enemy? && |enemy.knownMoves| >= MaxMoves - 1 ==>
      pool == enemy.knownMoves && r == AttackingUtilities(enemy, pool, active, chart)
    ensures enemy != null && enemy.role.Enemy? && |enemy.knownMoves| < MaxMoves - 1 ==>
      && (PotentialMoves(enemy).Err? ==> r == Err(PotentialMoves(enemy).error))
      && (PotentialMoves(enemy).Ok? ==>
            && |pool| == |enemy.knownMoves| + |enemy.types|
            && pool[..|enemy.knownMoves|] == enemy.knownMoves
            && Views(pool[|enemy.knownMoves|..]) == PotentialMoves(enemy).value
            && (forall j :: |enemy.knownMoves| <= j < |pool| ==> fresh(pool[j]))
            && r == AttackingUtilities(enemy, pool, active, chart))
  {
    pool := [];
    if enemy == null || enemy.role.Bot? {
      return Err(AttributeError), pool;
    }
    var enemyMoves := enemy.knownMoves;
    if |enemy.knownMoves| < MaxMoves - 1 {
      var potential := CreatePotentialMoves(enemy);
      if potential.Err? {
        return Err(potential.error), pool;
      }
      assert Views(potential.value) == Views((enemyMoves + potential.value)[|enemy.knownMoves|..]);
      enemyMoves := enemyMoves + potential.value;
    }
    pool := enemyMoves;
    r := EvaluateAttackingMoveUtility(enemy, enemyMoves, active, chart);
  }

  // ---------------------------------------------------------------------
  // Ranking the switches

  /** The utility of switching to `member`: the negated utility of the predicted
      move used by the enemy against it. */
  function SwitchUtility(enemy: Pokemon?, predicted: Move, member: Pokemon, chart: TypeChart): (r: Result<real>)
    ensures r.Err? <==> AttackingUtilities(enemy, [predicted], member, chart).Err?
  {
    match AttackingUtilities(enemy, [predicted], member, chart)
    case Err(e) => Err(e)
    case Ok(l) => Ok(-1.0 * l[0].utility)
  }

  /** Switching to `member` is worth exactly minus what the predicted move would do
      to it, and fails exactly when scoring that move fails. */
  lemma SwitchUtilityNegates(enemy: Pokemon?, predicted: Move, member: Pokemon, chart: TypeChart)
    ensures enemy == null || enemy == member ==> SwitchUtility(enemy, predicted, member, chart) == Err(ValueError)
    ensures enemy != null && enemy != member ==>
      var r := SwitchUtility(enemy, predicted, member, chart);
      && (r.Ok? <==> MoveUtility(enemy, predicted, member, chart).Ok?)
      && (r.Err? ==> r.error == MoveUtility(enemy, predicted, member, chart).error)
      && (r.Ok? ==> r.value == -MoveUtility(enemy, predicted, member, chart).value)
  {
    if enemy != null && enemy != member {
      SingleMoveUtilities(enemy, predicted, member, chart);
    }
  }

  /** The unsorted `switch_utilities` list: every member whose name differs from the
      active one's, in team order, with its switch utility; the first member that
      fails ends the loop with its error, and reading the name of a missing active
      Pokemon raises AttributeError. */
  function RawSwitches(active: Pokemon?, team: seq<Pokemon>, predicted: Move, enemy: Pokemon?, chart: TypeChart)
    : Result<seq<Scored<Pokemon>>>
  {
    if |team| == 0 then Ok([])
    else
      var n := |team| - 1;
      match RawSwitches(active, team[..n], predicted, enemy, chart)
      case Err(e) => Err(e)
      case Ok(prev) =>
        if active == null then Err(AttributeError)
        else if active.name == team[n].name then Ok(prev)
        else
          match SwitchUtility(enemy, predicted, team[n], chart)
          case Err(e) => Err(e)
          case Ok(u) => Ok(prev + [Scored(n, team[n], u)])
  }

  /** Every entry of the raw list is a member other than the active one, tagged with
      its team position (positions increasing) and its switch utility. */
  lemma {:induction false} RawSwitchesEntries(active: Pokemon?, team: seq<Pokemon>, predicted: Move,
                                              enemy: Pokemon?, chart: TypeChart)
    requires RawSwitches(active, team, predicted, enemy, chart).Ok?
    ensures var r := RawSwitches(active, team, predicted, enemy, chart).value;
      && IndicesIncreasing(r)
      && forall j :: 0 <= j < |r| ==>
           && 0 <= r[j].index < |team|
           && r[j].item == team[r[j].index]
           && active != null && team[r[j].index].name != active.name
           && SwitchUtility(enemy, predicted, team[r[j].index], chart) == Ok(r[j].utility)
  {
    if |team| > 0 {
      var n := |team| - 1;
      var init := team[..n];
      RawSwitchesEntries(active, init, predicted, enemy, chart);
      var prev := RawSwitches(active, init, predicted, enemy, chart).value;
      assert forall j :: 0 <= j < |prev| ==> team[prev[j].index] == init[prev[j].index];
    }
  }

  /** Every member named differently from the active one is in the raw list. */
  lemma {:induction false} RawSwitchesCovers(active: Pokemon, team: seq<Pokemon>, predicted: Move,
                                             enemy: Pokemon?, chart: TypeChart, i: int)
    requires RawSwitches(active, team, predicted, enemy, chart).Ok?
    requires 0 <= i < |team| && team[i].name != active.name
    ensures var r := RawSwitches(active, team, predicted, enemy, chart).value;
      exists j :: 0 <= j < |r| && r[j].index == i && r[j].item == team[i]
  {
    var n := |team| - 1;
    var init := team[..n];
    var prev := RawSwitches(active, init, predicted, enemy, chart).value;
    var r := RawSwitches(active, team, predicted, enemy, chart).value;
    if i < n {
      RawSwitchesCovers(active, init, predicted, enemy, chart, i);
      var j :| 0 <= j < |prev| && prev[j].index == i && prev[j].item == init[i];
      assert r[j] == prev[j];
    } else {
      assert r[|prev|].index == i && r[|prev|].item == team[i];
    }
  }

  /** The loop succeeds iff the team is empty, or the active Pokemon is there and
      every member it does not skip can be scored. */
  lemma {:induction false} RawSwitchesOk(active: Pokemon?, team: seq<Pokemon>, predicted: Move,
                                         enemy: Pokemon?, chart: TypeChart)
    ensures RawSwitches(active, team, predicted, enemy, chart).Ok? <==>
      |team| == 0 || (active != null && forall i :: 0 <= i < |team| && team[i].name != active.name ==>
                                          SwitchUtility(enemy, predicted, team[i], chart).Ok?)
    ensures active == null && |team| > 0 ==> RawSwitches(active, team, predicted, enemy, chart) == Err(AttributeError)
  {
    if |team| > 0 {
      var n := |team| - 1;
      var init := team[..n];
      RawSwitchesOk(active, init, predicted, enemy, chart);
      assert forall i :: 0 <= i < n ==> init[i] == team[i];
    }
  }

  /** Once a prefix of the team fails, the whole loop fails with the same error. */
  lemma {:induction false} RawSwitchesErrorPersists(active: Pokemon?, team: seq<Pokemon>, predicted: Move,
                                                    enemy: Pokemon?, chart: TypeChart, k: int)
    requires 0 <= k <= |team| && RawSwitches(active, team[..k], predicted, enemy, chart).Err?
    ensures RawSwitches(active, team, predicted, enemy, chart) == RawSwitches(active, team[..k], predicted, enemy, chart)
  {
    if k < |team| {
      var init := team[..|team| - 1];
      assert init[..k] == team[..k];
      RawSwitchesErrorPersists(active, init, predicted, enemy, chart, k);
    } else {
      assert team[..k] == team;
    }
  }

  /** `evaluate_switch_utility`: the raw list, always ranked. */
  function SwitchUtilities(active: Pokemon?, team: seq<Pokemon>, predicted: Move, enemy: Pokemon?, chart: TypeChart)
    : (r: Result<seq<Scored<Pokemon>>>)
    ensures r.Ok? <==> RawSwitches(active, team, predicted, enemy, chart).Ok?
    ensures r.Err? ==> r.error == RawSwitches(active, team, predicted, enemy, chart).error
    ensures r.Ok? ==> SortedDesc(r.value) && StableOrder(r.value)
    ensures r.Ok? ==> multiset(r.value) == multiset(RawSwitches(active, team, predicted, enemy, chart).value)
  {
    match RawSwitches(active, team, predicted, enemy, chart)
    case Err(e) => Err(e)
    case Ok(raw) =>
      RawSwitchesEntries(active, team, predicted, enemy, chart);
      SortDescCorrect(raw);
      Ok(SortDesc(raw))
  }

  /** The ranked switches hold exactly the members other than the active one, each
      once, each with its switch utility. */
  lemma SwitchUtilitiesMembers(active: Pokemon?, team: seq<Pokemon>, predicted: Move, enemy: Pokemon?, chart: TypeChart)
    requires SwitchUtilities(active, team, predicted, enemy, chart).Ok? && active != null
    ensures var r := SwitchUtilities(active, team, predicted, enemy, chart).value;
      && (forall j :: 0 <= j < |r| ==>
            && 0 <= r[j].index < |team| && r[j].item == team[r[j].index]
            && team[r[j].index].name != active.name
            && SwitchUtility(enemy, predicted, team[r[j].index], chart) == Ok(r[j].utility))
      && (forall i :: 0 <= i < |team| && team[i].name != active.name ==>
            exists j :: 0 <= j < |r| && r[j].index == i && r[j].item == team[i])
      && (forall i, j :: 0 <= i < j < |r| ==> r[i].index != r[j].index)
  {
    var raw := RawSwitches(active, team, predicted, enemy, chart).value;
    var r := SwitchUtilities(active, team, predicted, enemy, chart).value;
    RawSwitchesEntries(active, team, predicted, enemy, chart);
    forall j | 0 <= j < |r|
      ensures r[j] in raw
    {
      assert r[j] in multiset(raw);
    }
    forall i | 0 <= i < |team| && team[i].name != active.name
      ensures exists j :: 0 <= j < |r| && r[j].index == i && r[j].item == team[i]
    {
      RawSwitchesCovers(active, team, predicted, enemy, chart, i);
      var k :| 0 <= k < |raw| && raw[k].index == i && raw[k].item == team[i];
      assert raw[k] in multiset(r);
    }
    forall i, j | 0 <= i < j < |r|
      ensures r[i].index != r[j].index
    {
      if r[i].index == r[j].index {
        assert false;
      }
    }
  }

  /** `evaluate_switch_utility`, with the loop of the source: members named like the
      active Pokemon are skipped, the others scored by
      `evaluate_attacking_move_utility` on the predicted move alone. */
  method EvaluateSwitchUtility(active: Pokemon?, team: seq<Pokemon>, predicted: Scored<Move>, enemy: Pokemon?,
                               chart: TypeChart)
    returns (r: Result<seq<Scored<Pokemon>>>)
    ensures r == SwitchUtilities(active, team, predicted.item, enemy, chart)
  {
    var switchUtilities: seq<Scored<Pokemon>> := [];
    for index := 0 to |team|
      invariant RawSwitches(active, team[..index], predicted.item, enemy, chart) == Ok(switchUtilities)
    {
      assert team[..index + 1][..index] == team[..index];
      if active == null {
        RawSwitchesErrorPersists(active, team, predicted.item, enemy, chart, index + 1);
        return Err(AttributeError);
      }
      if active.name == team[index].name {
        continue;
      }
      var scored := EvaluateAttackingMoveUtility(enemy, [predicted.item], team[index], chart);
      if scored.Err? {
        RawSwitchesErrorPersists(active, team, predicted.item, enemy, chart, index + 1);
        return Err(scored.error);
      }
      var utility := scored.value[0].utility;
      utility := -1.0 * utility;
      switchUtilities := switchUtilities + [Scored(index, team[index], utility)];
    }
    assert team[..|team|] == team;
    r := Ok(SortDesc(switchUtilities));
  }
}
