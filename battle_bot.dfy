/**
 * The battle-state bookkeeping of BattleBots/battle_bot.py: the bot's own team,
 * replaced on every request; the enemy team, grown one sighting at a time; the
 * turn counter; the reference to the bot's active Pokemon; and the legality
 * checks for a move or a switch.
 */
module BattleBots {
  import opened Common
  import opened Text
  import opened MoveEntity
  import opened PokemonEntity

  /** The parts of a `|request|` message that `update_bot_team` reads, already
      parsed: `side.pokemon`, `active`, and whether `forceSwitch` is present. */
  datatype Request = Request(sidePokemon: Option<seq<PokemonEntry>>, active: Option<seq<ActiveEntry>>,
                             forceSwitch: bool)

  /** The position of the last active member, or -1 when no member is active. */
  function LastActiveIndex(team: seq<Pokemon>): (k: int)
    reads team
    ensures -1 <= k < |team|
    ensures k >= 0 ==> team[k].active
    ensures forall j :: k < j < |team| ==> !team[j].active
  {
    if |team| == 0 then -1
    else if team[|team| - 1].active then |team| - 1
    else LastActiveIndex(team[..|team| - 1])
  }

  /** The first member called exactly `name`, or `|team|` when there is none. The
      same search over a Pokemon's moves is `PokemonEntity.FirstMoveNamed`: Pokemon
      and moves share no common type that exposes `name`, so each list has its own. */
  function FirstNamed(team: seq<Pokemon>, name: string): (k: nat)
    ensures k <= |team| && (k < |team| ==> team[k].name == name)
    ensures forall j :: 0 <= j < k ==> team[j].name != name
  {
    if |team| == 0 || team[0].name == name then 0 else 1 + FirstNamed(team[1..], name)
  }

  /** The first member whose name contains `query`, or `|team|` when there is none. */
  function FirstContaining(team: seq<Pokemon>, query: string): (k: nat)
    ensures k <= |team| && (k < |team| ==> Contains(team[k].name, query))
    ensures forall j :: 0 <= j < k ==> !Contains(team[j].name, query)
  {
    if |team| == 0 || Contains(team[0].name, query) then 0 else 1 + FirstContaining(team[1..], query)
  }

  /** Exactly one member has its `active` flag set. */
  predicate ExactlyOneActive(team: seq<Pokemon>)
    reads team
  {
    exists i :: 0 <= i < |team| && team[i].active && forall j :: 0 <= j < |team| && j != i ==> !team[j].active
  }

  /** The positions of the members `is_alive` accepts. */
  ghost function AliveIndices(team: seq<Pokemon>): set<int>
    reads team
  {
    set i | 0 <= i < |team| && IsAlive(team[i].currHealth) == Ok(true)
  }

  /** `get_lives_count_of_bot_pokemon`: the number of members that are alive; the
      first member whose health is not an integer raises ValueError. */
  function LivesCount(team: seq<Pokemon>): (r: Result<nat>)
    reads team
    ensures r.Ok? <==> forall i :: 0 <= i < |team| ==> IsAlive(team[i].currHealth).Ok?
    ensures r.Err? ==> r.error == ValueError
    ensures r.Ok? ==> r.value <= |team|
  {
    if |team| == 0 then Ok(0)
    else
      var n := |team| - 1;
      var init := team[..n];
      assert forall i :: 0 <= i < n ==> init[i] == team[i];
      match LivesCount(init)
      case Err(e) => Err(e)
      case Ok(c) =>
        match IsAlive(team[n].currHealth)
        case Err(e) => Err(e)
        case Ok(alive) => Ok(if alive then c + 1 else c)
  }

  /** The count is the number of members `is_alive` accepts. */
  lemma {:induction false} LivesCountCountsAlive(team: seq<Pokemon>)
    requires LivesCount(team).Ok?
    ensures LivesCount(team).value == |AliveIndices(team)|
  {
    if |team| == 0 {
      assert AliveIndices(team) == {};
    } else {
      var n := |team| - 1;
      var init := team[..n];
      assert forall i :: 0 <= i < n ==> init[i] == team[i];
      LivesCountCountsAlive(init);
      AliveIndicesLast(team);
    }
  }

  /** The alive positions of a team are those of all but its last member, plus the
      last position when that member is alive. */
  lemma AliveIndicesLast(team: seq<Pokemon>)
    requires |team| > 0
    ensures var n := |team| - 1;
      |AliveIndices(team)| == |AliveIndices(team[..n])| + (if IsAlive(team[n].currHealth) == Ok(true) then 1 else 0)
  {
    var n := |team| - 1;
    var before := AliveIndices(team[..n]);
    var last := if IsAlive(team[n].currHealth) == Ok(true) then {n} else {};
    AliveIndicesSplit(team);
    assert n !in before;
    assert |before + last| == |before| + |last|;
  }

  lemma AliveIndicesSplit(team: seq<Pokemon>)
    requires |team| > 0
    ensures var n := |team| - 1;
      AliveIndices(team) == AliveIndices(team[..n]) + (if IsAlive(team[n].currHealth) == Ok(true) then {n} else {})
  {
    var n := |team| - 1;
    var init := team[..n];
    assert forall i :: 0 <= i < n ==> init[i] == team[i];
  }

  /** `find_enemy_pokemon_by_name`: the first member whose name contains the
      lower-cased query; ValueError when there is none. The fainted-member warning
      calls `is_alive`, which raises ValueError on health that is not an integer. */
  function FindEnemyPokemonByName(team: seq<Pokemon>, pokemonName: string): (r: Result<Pokemon>)
    reads team
    ensures var k := FirstContaining(team, Lower(pokemonName));
      && (k == |team| ==> r == Err(ValueError))
      && (k < |team| ==> r.Ok? == IsAlive(team[k].currHealth).Ok?)
      && (r.Ok? ==> k < |team| && r.value == team[k])
    ensures r.Err? ==> r.error == ValueError
    ensures r.Ok? ==> r.value in team && Contains(r.value.name, Lower(pokemonName))
  {
    var query := Lower(pokemonName);
    var k := FirstContaining(team, query);
    if k == |team| then Err(ValueError)
    else
      match IsAlive(team[k].currHealth)
      case Err(e) => Err(e)
      case Ok(_) => Ok(team[k])
  }

  /** The search ignores the case of the query. */
  lemma FindIgnoresCase(team: seq<Pokemon>, pokemonName: string)
    ensures FindEnemyPokemonByName(team, pokemonName) == FindEnemyPokemonByName(team, Lower(pokemonName))
  {
    LowerFixesLower(Lower(pokemonName));
  }

  /** A member stored under the lower-cased query itself is found, unless an earlier
      name contains the query; the one found is never later than it. */
  lemma {:induction false} StoredNameFound(team: seq<Pokemon>, pokemonName: string, i: int)
    requires 0 <= i < |team| && team[i].name == Lower(pokemonName)
    requires forall j :: 0 <= j <= i ==> IsAlive(team[j].currHealth).Ok?
    ensures FindEnemyPokemonByName(team, pokemonName).Ok?
    ensures FirstContaining(team, Lower(pokemonName)) <= i
  {
    var q := Lower(pokemonName);
    assert IsPrefix(q, team[i].name);
    assert Contains(team[i].name, q);
    var k := FirstContaining(team, q);
    assert k <= i;
    assert IsAlive(team[k].currHealth).Ok?;
  }

  class BattleBot {
    const battleId: string
    var botTeam: seq<Pokemon>
    var enemyTeam: seq<Pokemon>
    var currPokemonData: Option<seq<ActiveEntry>>
    var currPokemonRef: Pokemon?
    var activeMoves: Option<seq<Move>>
    var turn: int

    /** The enemy team holds distinct enemy Pokemon under formatted (lower-case)
        names, none of them a member of the bot's own team. */
    ghost predicate Valid()
      reads this, enemyTeam
    {
      && Distinct(enemyTeam)
      && (forall j :: 0 <= j < |enemyTeam| ==> enemyTeam[j].role.Enemy? && IsLower(enemyTeam[j].name))
      && (forall i, j :: 0 <= i < |botTeam| && 0 <= j < |enemyTeam| ==> botTeam[i] != enemyTeam[j])
    }

    /** `BattleBot.__init__`: both teams empty, no data, turn 0. */
    constructor (battleId: string)
      ensures Valid() && this.battleId == battleId
      ensures botTeam == [] && enemyTeam == [] && turn == 0
      ensures currPokemonData == None && currPokemonRef == null && activeMoves == None
    {
      this.battleId := battleId;
      botTeam := [];
      enemyTeam := [];
      currPokemonData := None;
      currPokemonRef := null;
      activeMoves := None;
      turn := 0;
    }

    /** `update_bot_team`. A team that cannot be built raises before anything changes;
        otherwise the team is replaced and the turn counted. Without `forceSwitch`, an
        `active` section is stored and its moves rebuilt, and a failure there raises
        before the reference is updated. The reference finally points to the last
        active member, and keeps its value when no member is active. */
    method UpdateBotTeam(request: Request, k: Knowledge) returns (r: Outcome)
      requires Valid()
      modifies this
      ensures Valid()
      ensures enemyTeam == old(enemyTeam)
      ensures var team := TeamOf(request.sidePokemon.GetOr([]), k);
        team.Err? ==>
          && r == Fail(team.error)
          && botTeam == old(botTeam) && turn == old(turn) && currPokemonRef == old(currPokemonRef)
          && currPokemonData == old(currPokemonData) && activeMoves == old(activeMoves)
      ensures var team := TeamOf(request.sidePokemon.GetOr([]), k);
        team.Ok? ==>
          && turn == old(turn) + 1
          && TeamViews(botTeam) == team.value
          && forall i :: 0 <= i < |botTeam| ==> fresh(botTeam[i])
      ensures request.forceSwitch || request.active.None? ==>
        currPokemonData == old(currPokemonData) && activeMoves == old(activeMoves)
      ensures var team := TeamOf(request.sidePokemon.GetOr([]), k);
        var moves := ActiveMovesOf(request.active, k.moveFacts);
        team.Ok? && !request.forceSwitch && request.active.Some? ==>
          && currPokemonData == request.active
          && (moves.Err? ==> r == Fail(moves.error) && activeMoves == old(activeMoves)
                             && currPokemonRef == old(currPokemonRef))
          && (moves.Ok? ==> activeMoves.Some? && Views(activeMoves.value) == moves.value)
      ensures r == Pass <==>
        && TeamOf(request.sidePokemon.GetOr([]), k).Ok?
        && (request.forceSwitch || request.active.None? || ActiveMovesOf(request.active, k.moveFacts).Ok?)
      ensures r == Pass ==>
        var a := LastActiveIndex(botTeam);
        currPokemonRef == if a < 0 then old(currPokemonRef) else botTeam[a]
    {
      var updatedTeam := CreatePokemonObjectsFromJson(request.sidePokemon, k);
      if updatedTeam.Err? {
        return Fail(updatedTeam.error);
      }
      r := AdoptTeam(updatedTeam.value, request, k.moveFacts);
    }

    /** `update_bot_team` once the new team is built: the team replaced, the turn
        counted, the `active` section handled, the reference updated. */
    method AdoptTeam(team: seq<Pokemon>, request: Request, lookup: string -> ApiMove) returns (r: Outcome)
      requires Valid()
      requires forall i, j :: 0 <= i < |team| && 0 <= j < |enemyTeam| ==> team[i] != enemyTeam[j]
      modifies this
      ensures Valid()
      ensures botTeam == team && enemyTeam == old(enemyTeam) && turn == old(turn) + 1
      ensures request.forceSwitch || request.active.None? ==>
        currPokemonData == old(currPokemonData) && activeMoves == old(activeMoves)
      ensures var moves := ActiveMovesOf(request.active, lookup);
        !request.forceSwitch && request.active.Some? ==>
          && currPokemonData == request.active
          && (moves.Err? ==> r == Fail(moves.error) && activeMoves == old(activeMoves)
                             && currPokemonRef == old(currPokemonRef))
          && (moves.Ok? ==> activeMoves.Some? && Views(activeMoves.value) == moves.value)
      ensures r == Pass <==> request.forceSwitch || request.active.None? || ActiveMovesOf(request.active, lookup).Ok?
      ensures r == Pass ==>
        var a := LastActiveIndex(botTeam);
        currPokemonRef == if a < 0 then old(currPokemonRef) else botTeam[a]
    {
      botTeam := team;
      turn := turn + 1;
      // With `forceSwitch` the subclass's `make_action` runs instead.
      if !request.forceSwitch && request.active.Some? {
        r := RefreshActiveMoves(request.active, lookup);
        if r.Fail? {
          return;
        }
      }
      PointAtActive();
      r := Pass;
    }

    /** The `elif 'active'` branch of `update_bot_team`: the section is stored, and the
        active moves are rebuilt from it unless that raises. */
    method RefreshActiveMoves(active: Option<seq<ActiveEntry>>, lookup: string -> ApiMove) returns (r: Outcome)
      modifies this
      ensures botTeam == old(botTeam) && enemyTeam == old(enemyTeam) && turn == old(turn)
      ensures currPokemonRef == old(currPokemonRef) && currPokemonData == active
      ensures var moves := ActiveMovesOf(active, lookup);
        && (moves.Err? ==> r == Fail(moves.error) && activeMoves == old(activeMoves))
        && (moves.Ok? ==> r == Pass && activeMoves.Some? && Views(activeMoves.value) == moves.value)
        && (moves.Ok? ==> forall i :: 0 <= i < |activeMoves.value| ==> fresh(activeMoves.value[i]))
    {
      currPokemonData := active;
      var moves := CreateActiveMovesList(active, lookup);
      if moves.Err? {
        return Fail(moves.error);
      }
      activeMoves := Some(moves.value);
      r := Pass;
    }

    /** The closing loop of `update_bot_team`: the reference ends at the last active
        member, or keeps its value when no member is active. */
    method PointAtActive()
      modifies this
      ensures botTeam == old(botTeam) && enemyTeam == old(enemyTeam) && turn == old(turn)
      ensures currPokemonData == old(currPokemonData) && activeMoves == old(activeMoves)
      ensures var a := LastActiveIndex(botTeam);
        currPokemonRef == if a < 0 then old(currPokemonRef) else botTeam[a]
    {
      for i := 0 to |botTeam|
        invariant botTeam == old(botTeam) && enemyTeam == old(enemyTeam) && turn == old(turn)
        invariant currPokemonData == old(currPokemonData) && activeMoves == old(activeMoves)
        invariant var a := LastActiveIndex(botTeam[..i]);
          currPokemonRef == if a < 0 then old(currPokemonRef) else botTeam[a]
      {
        assert botTeam[..i + 1][..i] == botTeam[..i];
        if botTeam[i].active {
          currPokemonRef := botTeam[i];
        }
      }
      assert botTeam[..|botTeam|] == botTeam;
    }

    /** `update_enemy_team`. Every enemy is made inactive; then the first member named
        exactly `pokemonName` becomes active with the health text before the first `/`
        of `condition`, or, when no name matches, a new enemy is built, made active
        and appended. Building it may raise, after the flags were cleared. */
    method UpdateEnemyTeam(pokemonName: string, level: string, condition: string, k: Knowledge)
      returns (r: Outcome)
      requires Valid()
      modifies this, enemyTeam
      ensures Valid()
      ensures botTeam == old(botTeam) && turn == old(turn) && currPokemonRef == old(currPokemonRef)
      ensures currPokemonData == old(currPokemonData) && activeMoves == old(activeMoves)
      ensures |enemyTeam| >= |old(enemyTeam)| && enemyTeam[..|old(enemyTeam)|] == old(enemyTeam)
      ensures forall j :: 0 <= j < |old(enemyTeam)| ==> enemyTeam[j].knownMoves == old(enemyTeam[j].knownMoves)
      ensures var f := FirstNamed(old(enemyTeam), pokemonName);
        forall j :: 0 <= j < |old(enemyTeam)| && j != f ==>
          !enemyTeam[j].active && enemyTeam[j].currHealth == old(enemyTeam[j].currHealth)
      ensures var f := FirstNamed(old(enemyTeam), pokemonName);
        f < |old(enemyTeam)| ==>
          && r == Pass && enemyTeam == old(enemyTeam)
          && enemyTeam[f].active && enemyTeam[f].currHealth == HpText(Before(condition, '/'))
      ensures var n := |old(enemyTeam)|;
        var created := EnemyOf(pokemonName, level, condition, k);
        FirstNamed(old(enemyTeam), pokemonName) == n ==>
          && (created.Err? ==> r == Fail(created.error) && enemyTeam == old(enemyTeam))
          && (created.Ok? ==> && r == Pass && |enemyTeam| == n + 1 && fresh(enemyTeam[n])
                              && enemyTeam[n].View() == created.value.(active := true))
      ensures r == Pass ==> ExactlyOneActive(enemyTeam)
    {
      ClearEnemyFlags();
      var found := FirstNamed(enemyTeam, pokemonName);
      if found < |enemyTeam| {
        enemyTeam[found].active := true;
        enemyTeam[found].currHealth := HpText(Split(condition, '/')[0]);
        SplitPieces(condition, '/');
        assert enemyTeam[..|enemyTeam|] == enemyTeam;
        r := Pass;
      } else {
        var created := EnemyOf(pokemonName, level, condition, k);
        if created.Err? {
          assert enemyTeam[..|enemyTeam|] == enemyTeam;
          return Fail(created.error);
        }
        AddEnemy(created.value);
        r := Pass;
      }
    }

    /** The first loop of `update_enemy_team`: every enemy made inactive. */
    method ClearEnemyFlags()
      modifies enemyTeam
      ensures forall j :: 0 <= j < |enemyTeam| ==> !enemyTeam[j].active
      ensures forall j :: 0 <= j < |enemyTeam| ==> enemyTeam[j].currHealth == old(enemyTeam[j].currHealth)
      ensures forall j :: 0 <= j < |enemyTeam| ==> enemyTeam[j].knownMoves == old(enemyTeam[j].knownMoves)
    {
      for i := 0 to |enemyTeam|
        invariant forall j :: 0 <= j < i ==> !enemyTeam[j].active
        invariant forall j :: 0 <= j < |enemyTeam| ==> enemyTeam[j].currHealth == old(enemyTeam[j].currHealth)
        invariant forall j :: 0 <= j < |enemyTeam| ==> enemyTeam[j].knownMoves == old(enemyTeam[j].knownMoves)
      {
        enemyTeam[i].active := false;
      }
    }

    /** The `else` branch of `update_enemy_team`: the new enemy, made active, joins
        the end of the team. */
    method AddEnemy(v: PokemonView)
      requires Valid() && v.knownMoves == [] && v.role.Enemy? && IsLower(v.name)
      modifies this
      ensures Valid()
      ensures botTeam == old(botTeam) && turn == old(turn) && currPokemonRef == old(currPokemonRef)
      ensures currPokemonData == old(currPokemonData) && activeMoves == old(activeMoves)
      ensures |enemyTeam| == |old(enemyTeam)| + 1 && enemyTeam[..|old(enemyTeam)|] == old(enemyTeam)
      ensures fresh(enemyTeam[|old(enemyTeam)|]) && enemyTeam[|old(enemyTeam)|].View() == v.(active := true)
    {
      var newEnemyPokemon := new Pokemon(v);
      newEnemyPokemon.active := true;
      enemyTeam := enemyTeam + [newEnemyPokemon];
      assert enemyTeam[..|old(enemyTeam)|] == old(enemyTeam);
    }

    /** `move_validity`: an index outside 0..3 raises ValueError and a missing move
        list TypeError (`len(None)`); a sole move is always valid, whatever its index
        and state; otherwise the indexed move must exist and be possible. */
    function MoveValidity(value: int): (r: Result<bool>)
      reads this, activeMoves.GetOr([])
      ensures !(0 <= value <= 3) ==> r == Err(ValueError)
      ensures 0 <= value <= 3 && activeMoves.None? ==> r == Err(TypeError)
      ensures 0 <= value <= 3 && activeMoves.Some? ==>
        var moves := activeMoves.value;
        && (r.Err? <==> |moves| != 1 && value >= |moves|)
        && (r.Err? ==> r.error == IndexError)
        && (r == Ok(true) <==> |moves| == 1 || (value < |moves| && !moves[value].disabled && 0 < moves[value].pp))
    {
      if !(0 <= value <= 3) then Err(ValueError)
      else if activeMoves.None? then Err(TypeError)
      else if |activeMoves.value| == 1 then Ok(true)
      else if value >= |activeMoves.value| then Err(IndexError)
      else Ok(activeMoves.value[value].IsPossible())
    }

    /** `switch_validity`: an index outside 0..5 raises ValueError and one past the
        team IndexError; a member is a valid switch iff its health is not the integer
        0 and it is not the active one. */
    function SwitchValidity(value: int): (r: Result<bool>)
      reads this, botTeam
      ensures !(0 <= value <= 5) ==> r == Err(ValueError)
      ensures 0 <= value <= 5 ==> (r.Err? <==> value >= |botTeam|)
      ensures r.Err? ==> r.error == ValueError || r.error == IndexError
      ensures 0 <= value <= 5 && value < |botTeam| ==>
        (r == Ok(true) <==> botTeam[value].currHealth != HpZero && !botTeam[value].active)
    {
      if !(0 <= value <= 5) then Err(ValueError)
      else if value >= |botTeam| then Err(IndexError)
      else if botTeam[value].currHealth == HpZero then Ok(false)
      else if botTeam[value].active then Ok(false)
      else Ok(true)
    }
  }

  /** A sole active move is accepted at every legal index, even when it is disabled
      and out of pp. */
  lemma SoleMoveAlwaysValid(bot: BattleBot, value: int)
    requires 0 <= value <= 3 && bot.activeMoves.Some? && |bot.activeMoves.value| == 1
    ensures bot.MoveValidity(value) == Ok(true)
  {
  }

  /** With several moves, a move built from an entry without pp is never valid. */
  lemma MoveWithoutPpInvalid(bot: BattleBot, value: int, e: MoveEntry, lookup: string -> ApiMove)
    requires 0 <= value <= 3 && bot.activeMoves.Some? && |bot.activeMoves.value| > 1
    requires value < |bot.activeMoves.value| && e.pp.None?
    requires MoveFromEntry(e, lookup).Ok? && bot.activeMoves.value[value].View() == MoveFromEntry(e, lookup).value
    ensures bot.MoveValidity(value) == Ok(false)
  {
    MissingPpNeverPossible(e, lookup);
  }

  /** The member the reference was last pointed at, the last active one, is never a
      valid switch. */
  lemma ActiveMemberNotSwitchable(bot: BattleBot)
    requires 0 <= LastActiveIndex(bot.botTeam) <= 5
    ensures bot.SwitchValidity(LastActiveIndex(bot.botTeam)) == Ok(false)
  {
  }

  /** A member built from a condition without `/` (the simulator's "0 fnt") is never a
      valid switch, but one whose health text reads "0" is: the text is compared with
      the integer 0. */
  lemma {:induction false} FaintedNotSwitchable(bot: BattleBot, value: int, condition: string)
    requires 0 <= value <= 5 && value < |bot.botTeam|
    ensures '/' !in condition && bot.botTeam[value].currHealth == ParseCondition(condition).curr ==>
      bot.SwitchValidity(value) == Ok(false)
    ensures bot.botTeam[value].currHealth == HpText("0") && !bot.botTeam[value].active ==>
      bot.SwitchValidity(value) == Ok(true)
  {
    if '/' !in condition {
      assert ParseCondition(condition).curr == HpZero;
    }
  }

  /** Stored enemy names are lower case, so a sighting under a name with a capital
      letter never matches and always appends a new member. */
  lemma CapitalisedSightingAppends(bot: BattleBot, pokemonName: string)
    requires bot.Valid() && !IsLower(pokemonName)
    ensures FirstNamed(bot.enemyTeam, pokemonName) == |bot.enemyTeam|
  {
  }
}
