/**
 * The combatant entity of Engine/pokemon.py: a Pokemon's identity, types,
 * level and health parsed from the simulator's text fields, the name
 * normalisation used for pokeapi, the per-side extras (a bot Pokemon's
 * moveset, ability, item and tera type; an enemy's candidate abilities and
 * the moves it has been seen to use), and the construction of the bot's
 * whole team from the `side.pokemon` entries of a request.
 */
module PokemonEntity {
  import opened Common
  import opened Text
  import opened MoveEntity

  const MaxMoves := 4

  // ---------------------------------------------------------------------
  // Health

  /** `curr_health` / `max_health` hold either the raw text cut from the
      condition string or the integer 0 put there for a fainted Pokemon. */
  datatype Hp = HpText(text: string) | HpZero

  datatype Health = Health(curr: Hp, max: Hp)

  /** Condition parsing in `Pokemon.__init__`: `"cur/max"` gives the text before
      and after the first `/`; a condition without `/` gives 0 and 0. */
  function ParseCondition(condition: string): (h: Health)
    ensures '/' !in condition ==> h == Health(HpZero, HpZero)
    ensures '/' in condition ==> h.curr.HpText? && h.max.HpText?
    ensures '/' in condition ==> '/' !in h.curr.text && h.curr.text + "/" <= condition
    ensures '/' in condition ==> '/' !in h.max.text && h.curr.text + "/" + h.max.text <= condition
    ensures '/' in condition ==> var n := |h.curr.text| + 1 + |h.max.text|;
      n == |condition| || condition[n] == '/'
  {
    if '/' in condition then
      SplitPieces(condition, '/');
      var rest := After(condition, '/');
      assert condition == Before(condition, '/') + "/" + rest;
      assert Before(rest, '/') <= rest;
      Health(HpText(Split(condition, '/')[0]), HpText(Split(condition, '/')[1]))
    else
      Health(HpZero, HpZero)
  }

  /** The simulator's `"cur/max"` text parses back into its two numbers. */
  lemma ConditionRoundTrip(curr: int, max: int)
    ensures ParseCondition(ShowInt(curr) + "/" + ShowInt(max)) == Health(HpText(ShowInt(curr)), HpText(ShowInt(max)))
  {
    var c, m := ShowInt(curr), ShowInt(max);
    NoSlashInShowInt(curr);
    NoSlashInShowInt(max);
    var s := c + "/" + m;
    BeforeAfterConcat(c, '/', m);
    SplitPieces(s, '/');
    assert s[|c|] == '/';
  }

  lemma NoSlashInShowInt(n: int)
    ensures '/' !in ShowInt(n)
  {
    var s := ShowInt(n);
    if n < 0 {
      assert s == "-" + ShowNat(-n);
      assert forall i :: 1 <= i < |s| ==> s[i] == ShowNat(-n)[i - 1];
    }
  }

  /** `is_alive`: `0 < int(curr_health)`; `int()` raises on text that is not an integer. */
  function IsAlive(hp: Hp): (r: Result<bool>)
    ensures hp.HpZero? ==> r == Ok(false)
    ensures hp.HpText? ==> (r.Ok? <==> ParseInt(hp.text).Some?)
    ensures r.Err? ==> r.error == ValueError
    ensures hp.HpText? && r.Ok? ==> (r.value <==> ParseInt(hp.text).value > 0)
  {
    match hp
    case HpZero => Ok(false)
    case HpText(t) =>
      match ParseInt(t)
      case None => Err(ValueError)
      case Some(n) => Ok(0 < n)
  }

  /** Health printed as a number is alive exactly when that number is positive. */
  lemma AliveIffPositive(n: int)
    ensures IsAlive(HpText(ShowInt(n))) == Ok(0 < n)
  {
    ParseShowInt(n);
  }

  /** A Pokemon built from a condition without `/` is never alive. */
  lemma FaintedConditionNeverAlive(condition: string)
    requires '/' !in condition
    ensures IsAlive(ParseCondition(condition).curr) == Ok(false)
  {
  }

  // ---------------------------------------------------------------------
  // Names

  /** The three names `make_name_in_format` maps to a pokeapi form name. */
  predicate IsSpecialName(s: string) {
    s == "Toxtricity" || s == "toxtricity" || s == "Giratina" || s == "eiscue"
  }

  /** `make_name_in_format`. `given_name[-1]` raises on the empty name; the `-F` and
      `-M` branches compute a replacement and drop it, so they change nothing. */
  function MakeNameInFormat(givenName: string): (r: Result<string>)
    ensures r.Err? <==> |givenName| == 0
    ensures r.Err? ==> r.error == IndexError
    ensures r.Ok? ==> IsLower(r.value)
    ensures givenName == "Toxtricity" || givenName == "toxtricity" ==> r == Ok("toxtricity-amped")
    ensures givenName == "Giratina" ==> r == Ok("giratina-altered")
    ensures givenName == "eiscue" ==> r == Ok("eiscue-ice")
    ensures |givenName| > 0 && !IsSpecialName(givenName) ==> r == Ok(Lower(givenName))
  {
    if |givenName| == 0 then Err(IndexError)
    else
      var n := if givenName == "Toxtricity" || givenName == "toxtricity" then "toxtricity-amped" else givenName;
      var n := if n == "Giratina" then "giratina-altered" else n;
      var n := if n == "eiscue" then "eiscue-ice" else n;
      LowerFixesLower("toxtricity-amped");
      LowerFixesLower("giratina-altered");
      LowerFixesLower("eiscue-ice");
      Ok(Lower(n))
  }

  /** A female or male form keeps its one-letter suffix, lower-cased: "-female" and
      "-male" are never produced. */
  lemma {:induction false} GenderSuffixKept(base: string, suffix: char)
    requires suffix == 'F' || suffix == 'M'
    ensures MakeNameInFormat(base + ['-', suffix]) == Ok(Lower(base) + ['-', LowerChar(suffix)])
  {
    var s := base + ['-', suffix];
    assert !IsSpecialName(s) by {
      assert s[|s| - 1] == suffix;
    }
    var l := Lower(s);
    assert l[..|base|] == Lower(base);
    assert l == l[..|base|] + [l[|base|], l[|base| + 1]];
  }

  /** `long_to_short_key_mapping`: pokeapi's stat names to the short keys the
      scorer reads. */
  const LongToShortKeyMapping: map<string, string> := map[
    "hp" := "hp",
    "attack" := "atk",
    "defense" := "def",
    "special-attack" := "spa",
    "special-defense" := "spd",
    "speed" := "spe"]

  /** The mapping covers the six stats, gives each its own short key, and the
      short keys include the four the scorer reads. */
  lemma ShortKeysDistinct()
    ensures LongToShortKeyMapping.Keys == {"hp", "attack", "defense", "special-attack", "special-defense", "speed"}
    ensures forall a, b :: a in LongToShortKeyMapping && b in LongToShortKeyMapping && a != b ==>
      LongToShortKeyMapping[a] != LongToShortKeyMapping[b]
    ensures forall s :: s in {"atk", "def", "spa", "spd"} ==> s in LongToShortKeyMapping.Values
  {
    var m := LongToShortKeyMapping;
    assert m["attack"] == "atk" && m["defense"] == "def";
    assert m["special-attack"] == "spa" && m["special-defense"] == "spd";
  }

  // ---------------------------------------------------------------------
  // Building Pokemon

  /** The knowledge source (pokeapi), keyed by `ApiKey` of the raw name. */
  datatype Knowledge = Knowledge(
    /** `get_field_from_api(singular, plural)`: the names listed under `plural`
        for a key (empty when the key is missing), None when the answer is not JSON. */
    apiList: (string, string) -> Option<seq<string>>,
    /** `set_stats`: base stats by short key. */
    baseStats: string -> map<string, int>,
    /** One move's answer, read by `fill_data_fields`. */
    moveFacts: string -> ApiMove)

  /** What `Pokemon.__init__` sets. */
  datatype Base = Base(name: string, types: seq<string>, level: string, health: Health)

  /** `Pokemon.__init__`: the formatted name, the looked-up types (`set_types` raises
      when the lookup fails), the level as given and the parsed condition. */
  function InitBase(name: string, level: string, condition: string, k: Knowledge): (r: Result<Base>)
    ensures |name| == 0 ==> r == Err(IndexError)
    ensures |name| > 0 ==> (r.Ok? <==> k.apiList(ApiKey(name), "types").Some?)
    ensures |name| > 0 && r.Err? ==> r.error == ValueError
    ensures r.Ok? ==> IsLower(r.value.name) && Ok(r.value.name) == MakeNameInFormat(name)
    ensures r.Ok? ==> r.value.types == k.apiList(ApiKey(name), "types").value
    ensures r.Ok? ==> r.value.level == level && r.value.health == ParseCondition(condition)
  {
    match MakeNameInFormat(name)
    case Err(e) => Err(e)
    case Ok(formatted) =>
      match k.apiList(ApiKey(name), "types")
      case None => Err(ValueError)
      case Some(types) => Ok(Base(formatted, types, level, ParseCondition(condition)))
  }

  /** The side-specific attributes of `BotPokemon` and `EnemyPokemon`. */
  datatype Role =
    | Bot(moves: seq<string>, ability: string, item: string, teraType: string)
    | Enemy(abilities: Option<seq<string>>, potentialMoves: Option<seq<string>>)

  /** The value of every field of a Pokemon. */
  datatype PokemonView = PokemonView(
    name: string, types: seq<string>, level: string, currHealth: Hp, maxHealth: Hp,
    active: bool, stats: map<string, int>, role: Role, knownMoves: seq<Move>)

  /** What `create_move` (Engine/move.py) gives for a newly seen enemy move. */
  datatype MoveData = MoveData(pp: int, disabled: bool, facts: Facts, category: Category)

  /** The first move of `ms` called `name`, or `|ms|` when there is none: the loop
      test of `update_enemy_moves`. `BattleBots.FirstNamed` is the same search over a
      team; moves and Pokemon share no common type that exposes `name`. */
  function FirstMoveNamed(ms: seq<Move>, name: string): (k: nat)
    ensures k <= |ms| && (k < |ms| ==> ms[k].name == name)
    ensures forall j :: 0 <= j < k ==> ms[j].name != name
  {
    if |ms| == 0 || ms[0].name == name then 0 else 1 + FirstMoveNamed(ms[1..], name)
  }

  class Pokemon {
    const name: string
    const types: seq<string>
    const level: string
    const maxHealth: Hp
    var currHealth: Hp
    var active: bool
    const stats: map<string, int>
    const role: Role
    var knownMoves: seq<Move>

    /** Each known move is a separate object. */
    ghost predicate Valid()
      reads this
    {
      Distinct(knownMoves)
    }

    function View(): PokemonView
      reads this
    {
      PokemonView(name, types, level, currHealth, maxHealth, active, stats, role, knownMoves)
    }

    /** A Pokemon with the given fields; both kinds start with no known moves. */
    constructor (v: PokemonView)
      requires v.knownMoves == []
      ensures View() == v && Valid()
    {
      name := v.name;
      types := v.types;
      level := v.level;
      currHealth := v.currHealth;
      maxHealth := v.maxHealth;
      active := v.active;
      stats := v.stats;
      role := v.role;
      knownMoves := v.knownMoves;
    }

    /** `EnemyPokemon.update_enemy_moves`: a move already seen loses one pp (with no
        lower bound); an unseen one is appended as built by `create_move`. */
    method UpdateEnemyMoves(moveName: string, made: MoveData)
      requires Valid() && role.Enemy?
      modifies this, knownMoves
      ensures Valid()
      ensures currHealth == old(currHealth) && active == old(active)
      ensures |knownMoves| >= |old(knownMoves)|
      ensures forall j :: 0 <= j < |old(knownMoves)| ==> knownMoves[j] == old(knownMoves[j])
      ensures forall j :: 0 <= j < |old(knownMoves)| ==> knownMoves[j].disabled == old(knownMoves[j].disabled)
      ensures var k := FirstMoveNamed(old(knownMoves), moveName);
        k < |old(knownMoves)| ==>
          && knownMoves == old(knownMoves)
          && knownMoves[k].pp == old(knownMoves[k].pp) - 1
          && forall j :: 0 <= j < |knownMoves| && j != k ==> knownMoves[j].pp == old(knownMoves[j].pp)
      ensures var n := |old(knownMoves)|;
        FirstMoveNamed(old(knownMoves), moveName) == n ==>
          && |knownMoves| == n + 1
          && knownMoves[..n] == old(knownMoves)
          && fresh(knownMoves[n])
          && knownMoves[n].View() == MoveView(moveName, made.pp, made.disabled, made.facts, made.category)
          && forall j :: 0 <= j < n ==> knownMoves[j].pp == old(knownMoves[j].pp)
    {
      for i := 0 to |knownMoves|
        invariant forall j :: 0 <= j < i ==> knownMoves[j].name != moveName
      {
        if knownMoves[i].name == moveName {
          knownMoves[i].pp := knownMoves[i].pp - 1;
          return;
        }
      }
      var move := new Move(moveName, made.pp, made.disabled, made.facts, made.category);
      knownMoves := knownMoves + [move];
    }
  }

  /** The fields of each member, in order; `MoveEntity.Views` is the same for a move
      list, over a different class with a different `View`. */
  function TeamViews(team: seq<Pokemon>): (r: seq<PokemonView>)
    reads team
    ensures |r| == |team| && forall i :: 0 <= i < |team| ==> r[i] == team[i].View()
  {
    seq(|team|, i reads team requires 0 <= i < |team| => team[i].View())
  }

  /** `EnemyPokemon.__init__`: inactive, with the looked-up base stats, candidate
      abilities and candidate moves, and no known moves yet. */
  function EnemyOf(name: string, level: string, condition: string, k: Knowledge): (r: Result<PokemonView>)
    ensures r.Ok? <==> InitBase(name, level, condition, k).Ok?
    ensures r.Err? ==> r.error == InitBase(name, level, condition, k).error
    ensures r.Ok? ==> var b := InitBase(name, level, condition, k).value;
      && r.value.name == b.name && r.value.types == b.types && r.value.level == level
      && r.value.currHealth == b.health.curr && r.value.maxHealth == b.health.max
      && !r.value.active && r.value.knownMoves == []
      && r.value.stats == k.baseStats(ApiKey(name))
      && r.value.role == Enemy(k.apiList(ApiKey(name), "abilities"), k.apiList(ApiKey(name), "known_moves"))
  {
    match InitBase(name, level, condition, k)
    case Err(e) => Err(e)
    case Ok(b) =>
      var key := ApiKey(name);
      Ok(PokemonView(b.name, b.types, b.level, b.health.curr, b.health.max, false,
                     k.baseStats(key), Enemy(k.apiList(key, "abilities"), k.apiList(key, "known_moves")), []))
  }

  // ---------------------------------------------------------------------
  // The bot's team from a request

  /** One entry of `side.pokemon` in a request; every field may be absent. */
  datatype PokemonEntry = PokemonEntry(
    details: Option<string>, condition: Option<string>, active: Option<bool>,
    stats: Option<map<string, int>>, knownMoves: Option<seq<string>>,
    ability: Option<string>, item: Option<string>, teraType: Option<string>)

  /** The values `create_pokemon_objects_from_json` extracts from one entry. */
  datatype EntryFields = EntryFields(
    name: string, level: string, condition: string, active: bool, stats: map<string, int>,
    moves: seq<string>, ability: string, item: string, teraType: string)

  /** Field extraction for one entry: the name is the text of `details` before the
      first comma, the level the last two characters of the second comma field
      (`split(',')[1]` raises when there is no comma); absent fields take their
      defaults. */
  function ParseEntry(e: PokemonEntry): (r: Result<EntryFields>)
    ensures r.Err? <==> ',' !in e.details.GetOr("")
    ensures r.Err? ==> r.error == IndexError
    ensures r.Ok? ==> var d := e.details.GetOr("");
      && r.value.name == Before(d, ',')
      && r.value.level == LastTwo(Before(After(d, ','), ','))
    ensures r.Ok? ==>
      && r.value.condition == e.condition.GetOr("") && r.value.active == e.active.GetOr(false)
      && r.value.stats == e.stats.GetOr(map[]) && r.value.moves == e.knownMoves.GetOr([])
      && r.value.ability == e.ability.GetOr("") && r.value.item == e.item.GetOr("")
      && r.value.teraType == e.teraType.GetOr("")
  {
    var details := e.details.GetOr("");
    var pieces := Split(details, ',');
    SplitPieces(details, ',');
    if |pieces| < 2 then Err(IndexError)
    else
      Ok(EntryFields(pieces[0], LastTwo(pieces[1]), e.condition.GetOr(""), e.active.GetOr(false),
                     e.stats.GetOr(map[]), e.knownMoves.GetOr([]), e.ability.GetOr(""),
                     e.item.GetOr(""), e.teraType.GetOr("")))
  }

  /** The bot Pokemon one entry becomes. */
  function BotViewOf(e: PokemonEntry, k: Knowledge): Result<PokemonView>
  {
    match ParseEntry(e)
    case Err(err) => Err(err)
    case Ok(f) =>
      match InitBase(f.name, f.level, f.condition, k)
      case Err(err) => Err(err)
      case Ok(b) =>
        Ok(PokemonView(b.name, b.types, b.level, b.health.curr, b.health.max, f.active,
                       f.stats, Bot(f.moves, f.ability, f.item, f.teraType), []))
  }

  /** The team built from the entries in order, or the error of the first entry that fails. */
  function TeamOf(es: seq<PokemonEntry>, k: Knowledge): Result<seq<PokemonView>> {
    MapAll(BotViews(k), es)
  }

  /** `BotViewOf` with the knowledge source fixed. */
  function BotViews(k: Knowledge): PokemonEntry -> Result<PokemonView> {
    e => BotViewOf(e, k)
  }

  /** What one entry of `side.pokemon` becomes, read off the entry itself: it fails
      when `details` has no comma (IndexError), when the name is empty (IndexError)
      or when its types cannot be looked up (ValueError); otherwise the Pokemon has
      the formatted name, the looked-up types, the level and health of the entry,
      the entry's `active` flag, stats, moves, ability, item and tera type, and no
      known moves. */
  lemma BotViewOfFields(e: PokemonEntry, k: Knowledge)
    ensures var r := BotViewOf(e, k);
      var d := e.details.GetOr("");
      var name := Before(d, ',');
      && (',' !in d ==> r == Err(IndexError))
      && (',' in d && |name| == 0 ==> r == Err(IndexError))
      && (',' in d && |name| > 0 ==> (r.Ok? <==> k.apiList(ApiKey(name), "types").Some?))
      && (r.Ok? ==>
           && IsLower(r.value.name) && Ok(r.value.name) == MakeNameInFormat(name)
           && r.value.types == k.apiList(ApiKey(name), "types").value
           && r.value.level == LastTwo(Before(After(d, ','), ','))
           && Health(r.value.currHealth, r.value.maxHealth) == ParseCondition(e.condition.GetOr(""))
           && r.value.active == e.active.GetOr(false)
           && r.value.stats == e.stats.GetOr(map[])
           && r.value.role == Bot(e.knownMoves.GetOr([]), e.ability.GetOr(""), e.item.GetOr(""), e.teraType.GetOr(""))
           && r.value.knownMoves == [])
  {
  }

  /** The team holds one Pokemon per entry, in order, each `BotViewOf` its entry; no
      entries give the empty team; otherwise the error is that of the first entry
      that fails. */
  lemma TeamOfEntries(es: seq<PokemonEntry>, k: Knowledge)
    ensures TeamOf([], k) == Ok([])
    ensures TeamOf(es, k).Ok? <==> forall i :: 0 <= i < |es| ==> BotViewOf(es[i], k).Ok?
    ensures TeamOf(es, k).Ok? ==>
      && |TeamOf(es, k).value| == |es|
      && forall i :: 0 <= i < |es| ==> BotViewOf(es[i], k) == Ok(TeamOf(es, k).value[i])
    ensures TeamOf(es, k).Err? ==>
      exists i ::
        && 0 <= i < |es|
        && BotViewOf(es[i], k) == Err(TeamOf(es, k).error)
        && forall j :: 0 <= j < i ==> BotViewOf(es[j], k).Ok?
  {
    var f := BotViews(k);
    assert forall x :: f(x) == BotViewOf(x, k);
    if TeamOf(es, k).Err? {
      var i :| FirstFailure(f, es, i) && f(es[i]) == Err(TeamOf(es, k).error);
    }
  }

  /** `create_pokemon_objects_from_json`: one fresh Pokemon per `side.pokemon` entry,
      in order, none when the request has no `side.pokemon`. */
  method CreatePokemonObjectsFromJson(sidePokemon: Option<seq<PokemonEntry>>, k: Knowledge)
    returns (r: Result<seq<Pokemon>>)
    ensures r.Ok? <==> TeamOf(sidePokemon.GetOr([]), k).Ok?
    ensures r.Err? ==> TeamOf(sidePokemon.GetOr([]), k) == Err(r.error)
    ensures r.Ok? ==> TeamViews(r.value) == TeamOf(sidePokemon.GetOr([]), k).value
    ensures r.Ok? ==> Distinct(r.value) && forall i :: 0 <= i < |r.value| ==> fresh(r.value[i])
  {
    r := BuildTeam(BotViews(k), sidePokemon.GetOr([]));
  }

  /** The loop of `create_pokemon_objects_from_json`, for any way `f` of turning an
      entry into the fields of a Pokemon with no known moves: the first entry `f`
      rejects ends the loop with its error. */
  method BuildTeam(f: PokemonEntry -> Result<PokemonView>, es: seq<PokemonEntry>)
    returns (r: Result<seq<Pokemon>>)
    requires forall e :: f(e).Ok? ==> f(e).value.knownMoves == []
    ensures r.Ok? <==> MapAll(f, es).Ok?
    ensures r.Err? ==> MapAll(f, es) == Err(r.error)
    ensures r.Ok? ==> TeamViews(r.value) == MapAll(f, es).value
    ensures r.Ok? ==> Distinct(r.value) && forall i :: 0 <= i < |r.value| ==> fresh(r.value[i])
  {
    var objects: seq<Pokemon> := [];
    ghost var views: seq<PokemonView> := [];
    for i := 0 to |es|
      invariant |objects| == i && |views| == i && Distinct(objects)
      invariant forall j :: 0 <= j < i ==> f(es[j]) == Ok(views[j])
      invariant forall j :: 0 <= j < i ==> fresh(objects[j]) && objects[j].View() == views[j]
    {
      var v := f(es[i]);
      if v.Err? {
        MapAllFirstError(f, es, i);
        return Err(v.error);
      }
      var p := new Pokemon(v.value);
      objects := objects + [p];
      views := views + [v.value];
    }
    MapAllValues(f, es, views);
    assert TeamViews(objects) == views;
    r := Ok(objects);
  }
}
