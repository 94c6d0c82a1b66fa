# ShowdownBot battle core in Dafny

This project models the core bookkeeping and greedy heuristic of ShowdownBot, a bot that plays Pokemon Showdown battles:

- **The battle bot** (`BattleBots.BattleBot`) keeps the bot's own team, the enemy team, the turn counter, the reference to the bot's active Pokemon and the active Pokemon's move list.
  - `update_bot_team` replaces the own team wholesale from each request and counts the turn.
  - `update_enemy_team` clears every enemy's `active` flag, then updates the enemy it finds by name or appends a new one.
  - `move_validity` and `switch_validity` decide whether an action index is legal.
- **The Pokemon entity** (`PokemonEntity`) covers:
  - condition parsing (`"cur/max"`) and `is_alive`;
  - name normalisation for pokeapi;
  - extraction of each `side.pokemon` entry of a request;
  - the enemy's move inference (`update_enemy_moves`);
  - the long-to-short stat key mapping.
- **The move entity** (`MoveEntity`) covers:
  - the pokeapi defaulting of power and accuracy;
  - `is_possible` and the disabled flag;
  - the active move list, cut to the first four entries of the request's `active` section.
- **The utility scorer** (`UtilityCalculator`, with the stable descending sort in `Sorting`):
  - it scores each move as accuracy × power × 1.2 for STAB × the type chart per defender type × the stat ratio its category selects, and ranks the list;
  - the enemy's candidate pool is padded with synthetic 60-power moves;
  - a switch candidate is ranked by the negated utility of the enemy's predicted move against it.

Every method of the source that changes state is a method of a Dafny class. `BattleBot`, `Pokemon` and `Move` have `const` fields for what never changes after construction and `var` fields for what the source assigns later.

- **Methods proved against a pure function.** Each of these methods has an `ensures` that ties its result or new state to a function, and the properties are proved about that function:
  - `CreatePokemonObjectsFromJson` and `BuildTeam` against `TeamOf` and `MapAll`;
  - `CreateActiveMovesList` against `ActiveMovesOf`;
  - `ScoreMove` against `MoveUtility`, and `EvaluateAttackingMoveUtility` against `AttackingUtilities`;
  - `CreatePotentialMoves` against `PotentialMoves`;
  - `EvaluateSwitchUtility` against `SwitchUtilities`;
  - `PointAtActive` against `LastActiveIndex`;
  - `UpdateBotTeam` against `TeamOf`, `ActiveMovesOf` and `LastActiveIndex` together.
- **Methods that only assign fields.** `UpdateEnemyTeam`, `ClearEnemyFlags`, `AddEnemy`, `Pokemon.UpdateEnemyMoves`, `DisableMove` and `EnableMove` state their new state outright in terms of the old one. `UpdateEnemyTeam` also keeps the invariant that exactly one enemy is active.
- **Loops.** These loops of the source are `for` loops with invariants:
  - the append loops of `create_pokemon_objects_from_json`, `create_active_moves_list`, `create_potential_moves`, `evaluate_attacking_move_utility` and `evaluate_switch_utility`;
  - the loop over the defender's types when a move is scored;
  - the flag-clearing loop of `update_enemy_team`;
  - the search loop of `update_enemy_moves`;
  - the loop of `update_bot_team` that looks for the active member.
- **Generator expressions.** Several searches and counts are generator expressions, and they become recursive functions:
  - the `sum(...)` of `get_lives_count_of_bot_pokemon` (BattleBots/battle_bot.py:54) is `LivesCount`;
  - the `next(...)` of `find_enemy_pokemon_by_name` (line 59) is `FirstContaining`;
  - the `next(...)` of `update_enemy_team` (line 146) is `FirstNamed`.
- **Not modelled as code.** The loop of `set_stats` (Engine/pokemon.py:140-146) is not modelled. Neither are `set_types`, `set_stats` and `set_potential_*`: their pokeapi answers are the `Knowledge` parameter. `Team.add` is appending to a `seq`.

Python exceptions become `Result`/`Outcome` values carrying the exception's kind (`PyError`). The `except RuntimeError` clauses of `update_bot_team` catch none of the modelled exceptions, so those propagate. The pokeapi lookups are a `Knowledge` parameter (functions keyed by `name.lower().replace(" ", "-")`). The type chart is a `TypeChart` parameter whose values are in {0, 0.5, 1, 2}.

Behaviours of the code that the model keeps as written:

- **Health text vs. the integer 0.** A condition with a `/` stores the text before it as `curr_health`; one without stores the integer 0 (`Hp.HpZero`).
  - `switch_validity` compares with the integer 0, so a member whose health text reads `"0"` counts as switchable.
  - `is_alive` raises ValueError on a health text that is not an integer.
- **Re-sighting a known enemy.** The health becomes the text before the first `/`, or the whole condition when there is none (for example `"0 fnt"`). Such a Pokemon's `is_alive` then raises.
- **Exact, case-sensitive name match.** The sighted name is compared with `==` against stored names, which `make_name_in_format` lower-cases, so a capitalised sighting never matches and always appends a new enemy (`CapitalisedSightingAppends`).
- **No lower bound on pp.** `update_enemy_moves` decrements pp with no lower bound.
- **Accuracy units.** An absent accuracy becomes `100.0`, a present one `accuracy / 100`.
- **Unchanged reference.** `curr_pokemon_ref` keeps its old value when no member is active, and ends at the *last* active member when several are.
- **A sole move is always legal.** With exactly one active move, any index 0..3 is legal, whatever that move's state.
- **`make_name_in_format`'s `-F`/`-M` branches** drop the result of `replace`.
- **Skipping by name.** `evaluate_switch_utility` skips every member that shares the active Pokemon's name.

In four places the code does less than its own comments, docstrings or parallel branches suggest. The model follows the code:

- **Re-sighting without `/`.** The docstring of `update_enemy_team` (BattleBots/battle_bot.py:136) gives the condition as `"current_health/max_health"`. A re-sighting whose condition has no `/` stores the whole condition text as the health (line 151), where `Pokemon.__init__` would store 0 (Engine/pokemon.py:18-20).
- **Accuracy units.** `fill_data_fields` stores a present accuracy as a fraction (Pokemon/move.py:36), but an absent one as `100.0` (line 34).
- **Ties in "the better attacking stat".** The comment at Engine/utility_calculator.py:76 asks for the better stat. The test at line 77 picks Special only when `atk < spa`, so ties go to Physical.
- **"Can't switch to the active pokemon".** The comment at BattleBots/battle_bot.py:239 is implemented by the member's own `active` flag, not by `curr_pokemon_ref`. `ActiveMemberNotSwitchable` states the consequence.

## Model

| member | source | states |
|---|---|---|
| MoveEntity.FillDataFields | Pokemon/move.py:24-37 | An absent priority raises TypeError. Otherwise: the type is copied; power is 0 when absent and the given integer otherwise; accuracy is 100.0 when absent and a present accuracy is divided by 100 (`accu * 100 == accuracy`). |
| MoveEntity.AbsentAccuracyOutweighsFull | Pokemon/move.py:32-36 | The accuracy quirk: a move with no accuracy gets 100 times the accuracy of a move with accuracy 100. |
| MoveEntity.CanUse | Pokemon/move.py:48-50 | A move is usable iff it is not disabled and has pp of at least 1. A disabled move, or one with pp 0 or less, is never usable. |
| MoveEntity.Move.constructor | Pokemon/move.py:6-22 | A move holds the given name, pp and disabled flag and the looked-up facts. |
| MoveEntity.Move.IsPossible | Pokemon/move.py:48-50 | A move object is possible iff it is not disabled and has pp of at least 1, which is `CanUse` of its fields. |
| MoveEntity.Move.DisableMove | Pokemon/move.py:42-43 | The move becomes disabled, pp is unchanged, and the move is no longer possible. |
| MoveEntity.Move.EnableMove | Pokemon/move.py:45-46 | The move becomes enabled, pp is unchanged, and the move is possible again exactly when pp > 0. |
| MoveEntity.ActiveMoveEntries | Pokemon/move.py:59-65 | A missing or empty `active` section raises IndexError. Otherwise the result is the first min(4, n) entries of `active[0].moves`, as a prefix. |
| MoveEntity.MoveFromEntry | Pokemon/move.py:66-71 | A missing name, pp or disabled field defaults to `''`, 0 or False; the facts are `FillDataFields` of the name's pokeapi key; construction fails exactly when that lookup has no priority. |
| MoveEntity.MissingPpNeverPossible | Pokemon/move.py:66-68 | A move built from an entry with no pp is never possible. |
| MoveEntity.MovesOf | Pokemon/move.py:65-72 | All entries are built in order, position by position, or the result is the error of an entry that fails. |
| MoveEntity.ActiveMovesOf | Pokemon/move.py:53-74 | At most four moves: move i is built from entry i of `active[0].moves`. A missing or empty section is an IndexError. |
| MoveEntity.CreateActiveMovesList | Pokemon/move.py:53-74 | The append loop succeeds exactly when `ActiveMovesOf` does, with the same error. On success it returns fresh moves whose fields are `ActiveMovesOf`'s. |
| PokemonEntity.ParseCondition | Engine/pokemon.py:15-20 | Without `/`, both healths are the integer 0. With `/`, the current health is the text before the first `/` and the maximum is the next piece up to the following `/`; neither contains `/`. |
| PokemonEntity.ConditionRoundTrip | Engine/pokemon.py:15-17 | `"cur/max"` printed from two integers parses back into those two numbers' texts. |
| PokemonEntity.IsAlive | Engine/pokemon.py:42-43 | The integer 0 is not alive. A text is alive iff it parses as an integer > 0; text that does not parse raises ValueError. |
| PokemonEntity.AliveIffPositive | Engine/pokemon.py:42-43 | Health printed from an integer n is alive exactly when n > 0. |
| PokemonEntity.FaintedConditionNeverAlive | Engine/pokemon.py:18-20 | A Pokemon built from a condition without `/` is never alive. |
| PokemonEntity.MakeNameInFormat | Engine/pokemon.py:102-121 | The empty name raises IndexError. Every other result is lower case, in the ASCII sense of `Text.Lower`. The exact results are Toxtricity/toxtricity → `toxtricity-amped`, Giratina → `giratina-altered`, eiscue → `eiscue-ice`, and the lower-cased name for every other name. |
| PokemonEntity.GenderSuffixKept | Engine/pokemon.py:104-107 | A `-F`/`-M` name keeps its one-letter suffix (lower-cased); it never becomes `-female`/`-male`. |
| PokemonEntity.FirstMoveNamed | Engine/pokemon.py:159-160 | The position of the first known move with the given name, or the list's length when none has it; no earlier move has the name. |
| PokemonEntity.ShortKeysDistinct | Engine/pokemon.py:167-175 | The mapping's keys are the six pokeapi stat names, and distinct stats get distinct short keys. The short keys include `atk`, `def`, `spa` and `spd`, which the scorer reads. |
| PokemonEntity.InitBase | Engine/pokemon.py:10-20 | The empty name raises IndexError, and a failed type lookup raises ValueError. Otherwise: the name is `make_name_in_format`'s (lower case); the types are the looked-up ones; the level is as given; the health is the parsed condition. |
| PokemonEntity.Pokemon.constructor | Engine/pokemon.py:46-54 | A Pokemon holds exactly the given fields and starts with no known moves. |
| PokemonEntity.Pokemon.UpdateEnemyMoves | Engine/pokemon.py:157-164 | If a move of that name is known, the first such move loses exactly one pp, with no lower bound; the list and every other move's pp are unchanged. If no move of that name is known, one fresh move with the given data is appended at the end and the earlier moves are untouched. Health and `active` never change. |
| PokemonEntity.EnemyOf | Engine/pokemon.py:124-131 | An enemy fails exactly when `Pokemon.__init__` does, with the same error. A built enemy has the base fields, is inactive, has no known moves, and has the looked-up stats, candidate abilities and candidate moves. |
| PokemonEntity.ParseEntry | Engine/pokemon.py:85-93 | `details` without a comma raises IndexError. Otherwise the name is the text before the first comma, and the level is the last two characters of the second comma field. Every other absent field takes its default (`''`, False, `{}` or `[]`). |
| PokemonEntity.BotViewOf | Engine/pokemon.py:84-96 | Defines the bot Pokemon one entry becomes: `ParseEntry`'s fields, passed through `InitBase`, with a `Bot` role and no known moves. Its properties are in `BotViewOfFields`. |
| PokemonEntity.BotViewOfFields | Engine/pokemon.py:84-96 | Read off the entry: `details` without a comma, or an empty name, raises IndexError, and a failed type lookup raises ValueError. Otherwise the Pokemon has the formatted lower-case name, the looked-up types, and the entry's level, parsed condition, `active` flag, stats, moves, ability, item and tera type. It has no known moves. |
| PokemonEntity.BotViews | Engine/pokemon.py:84-96 | `BotViewOf` with the pokeapi knowledge fixed, as the function applied to each entry. |
| PokemonEntity.TeamOf | Engine/pokemon.py:83-97 | Defines the team as `MapAll` of `BotViewOf` over the entries. Its properties are in `TeamOfEntries`. |
| PokemonEntity.TeamOfEntries | Engine/pokemon.py:83-97 | No entries give the empty team. The team succeeds iff every entry succeeds, and then holds one Pokemon per entry, in order. Otherwise the error is that of the first entry that fails. |
| PokemonEntity.CreatePokemonObjectsFromJson | Engine/pokemon.py:75-99 | One fresh, distinct Pokemon per `side.pokemon` entry, in input order; none when the section is missing. The first entry that fails raises its error. |
| PokemonEntity.BuildTeam | Engine/pokemon.py:83-97 | For any entry-to-fields conversion, the append loop yields fresh, distinct objects whose fields are the conversion of each entry in order, or the first failing entry's error. |
| Sorting.SortDesc | Engine/utility_calculator.py:53 | The sort keeps the length and is a permutation (equal multisets). |
| Sorting.SortDescCorrect | Engine/utility_calculator.py:51-53 | The sort is non-increasing in utility, and stable: entries with equal utility keep their input order. |
| Sorting.SortDescOfSorted | Engine/utility_calculator.py:53 | Sorting an already ranked list changes nothing. |
| Sorting.SortDescPermutesIndices | Engine/utility_calculator.py:47-53 | Sorting the enumerated list permutes the positions. Every input entry appears, every output entry is the input entry at its own index, and no index appears twice. |
| UtilityCalculator.StatRatio | Engine/utility_calculator.py:39-42 | A missing attacker key, then a missing defender key, raises KeyError, and a zero divisor raises ZeroDivisionError. The ratio exists exactly when both keys are present and the divisor is nonzero. |
| UtilityCalculator.MoveUtility | Engine/utility_calculator.py:26-42 | A defender with no types raises IndexError (`types[0]`). A Physical move succeeds iff `atk`, `def` and a nonzero `def` are there; a Special move iff `spa`, `spd` and a nonzero `spd` are; any other category always succeeds. |
| UtilityCalculator.HasStab | Engine/utility_calculator.py:29 | A move has STAB when it has a type and that type is one of its user's types. |
| UtilityCalculator.BaseUtility | Engine/utility_calculator.py:26-30 | Accuracy × power, times 1.2 with STAB. `StabScoresMore` states the bonus for a whole score. |
| UtilityCalculator.ApplyChart | Engine/utility_calculator.py:36-37 | Multiplies the utility by the chart's value for each defender type in turn. `ApplyChartImmune`, `ApplyChartNeutral` and `ApplyChartSign` state its properties. |
| UtilityCalculator.ApplyChartImmune | Engine/utility_calculator.py:36-37 | If any defender type is immune to the move type, the product is 0. |
| UtilityCalculator.ApplyChartNeutral | Engine/utility_calculator.py:36-37 | Defender types that are all neutral leave the utility unchanged. |
| UtilityCalculator.ApplyChartSign | Engine/utility_calculator.py:36-37 | The chart never changes the utility's sign. |
| UtilityCalculator.ImmuneMoveScoresZero | Engine/utility_calculator.py:26-42 | A move that one defender type is immune to scores 0, whatever the stats. |
| UtilityCalculator.StabScoresMore | Engine/utility_calculator.py:28-30 | The same move scores exactly 1.2 times more when its user has the move's type than when a user with the same stats does not, and both fail or succeed together. |
| UtilityCalculator.StatusIgnoresStats | Engine/utility_calculator.py:39-42 | A move that is neither Physical nor Special is scored without reading stats: Pokemon differing only in stats give the same result. |
| UtilityCalculator.NeutralPhysicalScore | Engine/utility_calculator.py:26-40 | A physical move without STAB, against neutral types, scores accuracy × power × atk / def. |
| UtilityCalculator.NeutralSpecialScore | Engine/utility_calculator.py:26-42 | A special move without STAB, against neutral types, scores accuracy × power × spa / spd. |
| UtilityCalculator.UtilityNonNegative | Engine/utility_calculator.py:26-42 | With non-negative accuracy, power and stats, no utility is negative. |
| UtilityCalculator.RawUtilities | Engine/utility_calculator.py:21-47 | Defines the unsorted list as `MapAll` of the per-move score over the enumerated moves. Its contents are in `RawUtilitiesContents`. |
| UtilityCalculator.RawUtilitiesContents | Engine/utility_calculator.py:21-47 | The loop succeeds iff every move scores. Position i then holds `(i, move i, its utility)`. |
| UtilityCalculator.AttackingUtilities | Engine/utility_calculator.py:6-55 | A missing attacker, a missing defender, or an attacker identical to the defender raises ValueError. Otherwise the result succeeds iff every move scores, and then has one entry per move. |
| UtilityCalculator.AttackingUtilitiesRanked | Engine/utility_calculator.py:21-53 | The result is non-increasing and stable on ties. Every move appears, tagged with its input index and its own utility; no index appears twice and every entry is the move at its index, so the result is a permutation of the moves. |
| UtilityCalculator.SingleMoveUtilities | Engine/utility_calculator.py:51-55 | A single move yields exactly its one tuple, or that move's error. |
| UtilityCalculator.TiedMovesKeepOrder | Engine/utility_calculator.py:51-53 | Two moves of equal utility come out in input order. |
| UtilityCalculator.BetterMoveRankedFirst | Engine/utility_calculator.py:51-53 | When the later of two moves scores strictly more, it is ranked first. |
| UtilityCalculator.ScoreMove | Engine/utility_calculator.py:26-42 | The loop body, which multiplies in one defender type at a time, computes exactly `MoveUtility`, errors included. |
| UtilityCalculator.EvaluateAttackingMoveUtility | Engine/utility_calculator.py:6-55 | The scoring loop and its ranking compute exactly `AttackingUtilities`, whose properties are the rows above. |
| UtilityCalculator.BetterCategory | Engine/utility_calculator.py:77-80 | A missing `atk` or `spa` raises KeyError. Otherwise the result is Special iff atk < spa and Physical otherwise, so ties go to Physical. |
| UtilityCalculator.PotentialMove | Engine/utility_calculator.py:75 | The synthetic move for one type: name `potential`, pp 10 (the text `"10"` in the source), not disabled, that type, power 60, accuracy 100, priority 0. `PotentialMoveBase` states its score. |
| UtilityCalculator.PotentialMoves | Engine/utility_calculator.py:71-83 | One synthetic move per enemy type, in type order, each of that type with power 60, accuracy 100 and the better-stat category. No types gives no moves and reads no stats. |
| UtilityCalculator.PotentialMoveBase | Engine/utility_calculator.py:74-75 | A synthetic move always has STAB and starts from 100 × 60 × 1.2 = 7200. |
| UtilityCalculator.CreatePotentialMoves | Engine/utility_calculator.py:71-83 | The loop fails exactly when `PotentialMoves` does. On success it builds distinct fresh moves whose fields are `PotentialMoves`'. |
| UtilityCalculator.EvaluateEnemyMove | Engine/utility_calculator.py:58-68 | With 3 or more known moves, the enemy's known moves are scored against the active Pokemon. With fewer, the synthetic moves are appended after them. The known-move list is never modified. A missing enemy or a bot Pokemon raises AttributeError. |
| UtilityCalculator.SwitchUtility | Engine/utility_calculator.py:101-103 | A switch's utility fails exactly when scoring the predicted move against that member fails. |
| UtilityCalculator.SwitchUtilityNegates | Engine/utility_calculator.py:101-103 | A switch is worth exactly minus the predicted move's utility against the member. A ValueError is raised when the enemy is missing or is the member. |
| UtilityCalculator.RawSwitches | Engine/utility_calculator.py:91-105 | Defines the unsorted switch list as the skip-and-score loop, one member at a time. `RawSwitchesEntries`, `RawSwitchesCovers` and `RawSwitchesOk` state its properties. |
| UtilityCalculator.RawSwitchesEntries | Engine/utility_calculator.py:91-105 | Each raw switch entry is a team member, at its own position, whose name differs from the active one's, and carries its switch utility. The positions increase. |
| UtilityCalculator.RawSwitchesCovers | Engine/utility_calculator.py:91-105 | Every member named differently from the active Pokemon is in the raw list. |
| UtilityCalculator.RawSwitchesOk | Engine/utility_calculator.py:91-105 | The loop succeeds iff the team is empty, or the active Pokemon exists and every member it does not skip scores. A missing active Pokemon with a nonempty team raises AttributeError. |
| UtilityCalculator.SwitchUtilities | Engine/utility_calculator.py:86-110 | The ranked switches fail exactly as the loop does. They are non-increasing and stable on ties, and are a permutation of the raw list. |
| UtilityCalculator.SwitchUtilitiesMembers | Engine/utility_calculator.py:91-108 | The ranked switches hold exactly the members not named like the active Pokemon, each once, each with the negated predicted utility. |
| UtilityCalculator.EvaluateSwitchUtility | Engine/utility_calculator.py:86-110 | The skip-and-score loop and its sort compute exactly `SwitchUtilities`. |
| BattleBots.LastActiveIndex | BattleBots/battle_bot.py:120-123 | The result is -1 or the position of an active member, and no later member is active. |
| BattleBots.FirstNamed | BattleBots/battle_bot.py:146 | The first member named exactly `name`; no earlier member has the name. |
| BattleBots.FirstContaining | BattleBots/battle_bot.py:59 | The first member whose name contains the query as a substring; no earlier one does. |
| BattleBots.LivesCount | BattleBots/battle_bot.py:50-54 | The count succeeds iff every member's health parses, and the error is ValueError. The count is at most the team size. |
| BattleBots.LivesCountCountsAlive | BattleBots/battle_bot.py:50-54 | The count equals the number of members that are alive. |
| BattleBots.FindEnemyPokemonByName | BattleBots/battle_bot.py:57-67 | The result is the first member whose name contains the lower-cased query. When there is none it raises ValueError; a found member whose health does not parse also raises ValueError. |
| BattleBots.FindIgnoresCase | BattleBots/battle_bot.py:58 | The search is unaffected by the case of the query. |
| BattleBots.StoredNameFound | BattleBots/battle_bot.py:57-67 | A member stored under the lower-cased query is found, or an earlier one containing it is. Only the health of the members up to that one needs to parse. |
| BattleBots.BattleBot.constructor | BattleBots/battle_bot.py:30-41 | Both teams begin empty; there is no data, no reference and no move list; the turn is 0. |
| BattleBots.BattleBot.UpdateBotTeam | BattleBots/battle_bot.py:71-124 | Fields: a team that fails to build raises and changes nothing. Otherwise the team is replaced by fresh Pokemon built from the entries, the turn rises by exactly 1, and the enemy team is untouched. With `forceSwitch` or no `active` section, the data and move list are kept. Otherwise the section is stored and the moves rebuilt; a failure there raises and keeps the move list and reference. Outcome: the update passes exactly when no step raises, and the reference then ends at the last active member, or keeps its value when none is active. |
| BattleBots.BattleBot.AdoptTeam | BattleBots/battle_bot.py:89-124 | Once the team is built: the team is replaced, the turn counted, the `active` section handled and the reference updated, as in `UpdateBotTeam`. |
| BattleBots.BattleBot.RefreshActiveMoves | BattleBots/battle_bot.py:105-117 | The `active` section is stored. The move list is rebuilt from it, or kept when rebuilding raises. |
| BattleBots.BattleBot.PointAtActive | BattleBots/battle_bot.py:120-124 | The reference ends at the last active member, or keeps its value; nothing else changes. |
| BattleBots.BattleBot.UpdateEnemyTeam | BattleBots/battle_bot.py:126-157 | Other enemies: every enemy other than the first exact-name match becomes inactive with its health unchanged, and no enemy's known moves change. Match found: the team keeps its length and that enemy becomes active, with the health text before the first `/` (the whole condition when there is none). No match: a fresh active enemy is appended and the earlier members are kept; building it may raise, leaving the team as it was with the flags cleared. Afterwards: on success, exactly one enemy is active, and the bot's own state never changes. |
| BattleBots.BattleBot.ClearEnemyFlags | BattleBots/battle_bot.py:142-143 | Every enemy becomes inactive, and health and known moves are unchanged. |
| BattleBots.BattleBot.AddEnemy | BattleBots/battle_bot.py:153-156 | The new enemy, made active, is appended at the end; earlier members and the bot's own state are unchanged. |
| BattleBots.BattleBot.MoveValidity | BattleBots/battle_bot.py:193-210 | An index outside 0..3 raises ValueError, and a missing move list raises TypeError. A sole move is legal. Otherwise an index past the list raises IndexError, and the move is legal iff it is not disabled and has pp > 0. |
| BattleBots.BattleBot.SwitchValidity | BattleBots/battle_bot.py:221-242 | An index outside 0..5 raises ValueError, and an index past the team raises IndexError. A member is a legal switch iff its health is not the integer 0 and it is not active. |
| BattleBots.SoleMoveAlwaysValid | BattleBots/battle_bot.py:206-208 | A sole active move is legal at every index 0..3, whatever its state. |
| BattleBots.MoveWithoutPpInvalid | BattleBots/battle_bot.py:210 | With several moves, one built from an entry without pp is never legal. |
| BattleBots.ActiveMemberNotSwitchable | BattleBots/battle_bot.py:239-241 | The member the reference was last pointed at is never a legal switch. |
| BattleBots.FaintedNotSwitchable | BattleBots/battle_bot.py:236-238 | A member built from a condition without `/` is never a legal switch, while an inactive member whose health text reads `"0"` is. |
| BattleBots.CapitalisedSightingAppends | BattleBots/battle_bot.py:146 | A sighting under a name with a capital letter never matches a stored enemy. |

## Left out

- The HTTP lookups against pokeapi are network I/O. They become the `Knowledge` parameter (types, abilities and candidate moves by key; base stats; one move's facts): `get_field_from_api`, `set_types`, `set_stats`, `set_potential_*`, and the `requests.get` in `fill_data_fields`. `set_stats`'s loop over the answer is not modelled; its result is the `baseStats` map.
- `json.loads` and the stripping of `|request|` are left out. The model starts from the parsed fields a request carries (`Request`, `PokemonEntry`, `ActiveEntry`, `MoveEntry`). A request that is not JSON is not modelled.
- `make_move`, `make_switch`, `make_team_order` and the `sender` calls are websocket output and are left out. So is the subclass's `make_action`, which `update_bot_team` awaits when `forceSwitch` is present. It lives in the subclasses, so its effect on the state is not modelled; the model changes nothing there.
- The `async`/`await` plumbing and every `print` are left out; they do not affect the state.
- BattleBots/random_bot.py is a random strategy over the legality predicates modelled here, and is left out.
- Engine/type.py is not part of this model. The type chart and `string_to_type` are the `TypeChart` parameter.
- Engine/team.py is not part of this model. A team is a `seq` of Pokemon; the initial `Team()` is the empty sequence, and `add` is appending.
- Engine/move.py is not part of this model.
  - `create_move`'s result is the `MoveData` parameter of `UpdateEnemyMoves`.
  - Its `create_active_moves_list`, which battle_bot.py imports, is taken as Pokemon/move.py's.
  - Its `Move` constructor, used by `create_potential_moves`, is read as taking accuracy 100 and priority 0 in that order.
  - Its `move_category`, which Pokemon/move.py's moves lack, is the `Category` field, `Unset` for moves read from a request.
- UtilityCalculator.MoveUtility: utilities are exact reals, not IEEE doubles, so rounding in `*=` and `/` is not modelled.
- PokemonEntity.Pokemon.UpdateEnemyMoves: pp is an integer, while the source stores `str(int(pp) - 1)`. The text/integer round trip is `Text.ParseShowInt`.
- UtilityCalculator.EvaluateEnemyMove: the scored pool is a ghost out-parameter. Only its relation to the enemy's moves is stated, not the identity of the synthetic move objects.
- BattleBots.BattleBot.UpdateEnemyTeam: the new enemy's fields are computed as a value (`EnemyOf`), without a separate step for `EnemyPokemon.__init__`'s effects on a partly built object.
- Text.Lower: only the ASCII letters A-Z are lowered, while Python's `str.lower` maps every Unicode upper-case letter. Pokemon names are taken as ASCII.
- Text.ParseInt: it accepts surrounding ASCII white space, an optional sign and ASCII digits. Python's `int` also accepts underscores between digits, non-ASCII digits and Unicode white space. Health texts are taken as ASCII.
