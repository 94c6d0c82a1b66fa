/**
 * The move entity of Pokemon/move.py: the combat facts looked up once when a
 * move is built, and the usability state (remaining pp, the disabled flag)
 * that changes afterwards; and the list of moves the active Pokemon may use
 * this turn, read from the `active` section of a request.
 */
module MoveEntity {
  import opened Common
  import opened Text

  /** `move_category`; `Unset` stands for the attribute's `None`. */
  datatype Category = Physical | Special | Status | Unset

  /** The fields of pokeapi's answer for one move, each possibly absent. */
  datatype ApiMove = ApiMove(typeName: Option<string>, power: Option<int>, accuracy: Option<int>, priority: Option<int>)

  /** The combat facts `fill_data_fields` stores on a move. */
  datatype Facts = Facts(moveType: Option<string>, power: int, accu: real, priority: int)

  /** The value of every field of a move. */
  datatype MoveView = MoveView(name: string, pp: int, disabled: bool, facts: Facts, category: Category)

  /** `fill_data_fields` without the HTTP request: absent power counts as 0, absent
      accuracy as 100.0, a present accuracy is divided by 100, and an absent priority
      makes `int(None)` raise. */
  function FillDataFields(api: ApiMove): (r: Result<Facts>)
    ensures r.Err? <==> api.priority.None?
    ensures r.Err? ==> r.error == TypeError
    ensures r.Ok? ==> r.value.moveType == api.typeName && r.value.priority == api.priority.value
    ensures r.Ok? ==> r.value.power == (if api.power.Some? then api.power.value else 0)
    ensures r.Ok? && api.accuracy.None? ==> r.value.accu == 100.0
    ensures r.Ok? && api.accuracy.Some? ==> r.value.accu * 100.0 == api.accuracy.value as real
  {
    match api.priority
    case None => Err(TypeError)
    case Some(p) =>
      var power := if api.power.None? then 0 else api.power.value;
      var accu := if api.accuracy.None? then 100.0 else api.accuracy.value as real / 100.0;
      Ok(Facts(api.typeName, power, accu, p))
  }

  /** The accuracy quirk: a move whose accuracy is absent is scored as if it were a
      hundred times more accurate than a move of accuracy 100. */
  lemma AbsentAccuracyOutweighsFull(t: Option<string>, power: Option<int>, priority: int)
    ensures FillDataFields(ApiMove(t, power, None, Some(priority))).Ok?
    ensures FillDataFields(ApiMove(t, power, Some(100), Some(priority))).Ok?
    ensures FillDataFields(ApiMove(t, power, None, Some(priority))).value.accu
         == 100.0 * FillDataFields(ApiMove(t, power, Some(100), Some(priority))).value.accu
  {
  }

  /** `is_possible`: a move can be chosen when it is not disabled and has pp left. */
  predicate CanUse(disabled: bool, pp: int)
    ensures disabled ==> !CanUse(disabled, pp)
    ensures pp <= 0 ==> !CanUse(disabled, pp)
    ensures !disabled && 1 <= pp ==> CanUse(disabled, pp)
  {
    !disabled && 0 < pp
  }

  class Move {
    const name: string
    var pp: int
    var disabled: bool
    const moveType: Option<string>
    const power: int
    const accu: real
    const priority: int
    const category: Category

    /** A move with the given usability state and looked-up facts. */
    constructor (name: string, pp: int, disabled: bool, facts: Facts, category: Category)
      ensures View() == MoveView(name, pp, disabled, facts, category)
    {
      this.name := name;
      this.pp := pp;
      this.disabled := disabled;
      this.moveType := facts.moveType;
      this.power := facts.power;
      this.accu := facts.accu;
      this.priority := facts.priority;
      this.category := category;
    }

    function View(): MoveView
      reads this
    {
      MoveView(name, pp, disabled, Facts(moveType, power, accu, priority), category)
    }

    predicate IsPossible()
      reads this
      ensures disabled ==> !IsPossible()
      ensures pp <= 0 ==> !IsPossible()
      ensures !disabled && 1 <= pp ==> IsPossible()
      ensures IsPossible() <==> CanUse(View().disabled, View().pp)
    {
      CanUse(disabled, pp)
    }

    /** `disable_move`: only the flag changes. */
    method DisableMove()
      modifies this
      ensures disabled && pp == old(pp)
      ensures !IsPossible()
    {
      disabled := true;
    }

    /** `enable_move`: only the flag changes, so the move is possible again iff it has pp. */
    method EnableMove()
      modifies this
      ensures !disabled && pp == old(pp)
      ensures IsPossible() <==> 0 < pp
    {
      disabled := false;
    }
  }

  /** One entry of `active[0].moves` in a request. */
  datatype MoveEntry = MoveEntry(move: Option<string>, pp: Option<int>, disabled: Option<bool>)

  /** One element of the `active` section of a request. */
  datatype ActiveEntry = ActiveEntry(moves: Option<seq<MoveEntry>>)

  const MaxActiveMoves := 4

  /** The move entries `create_active_moves_list` reads: the first four of
      `active[0].moves`; `active_section[0]` raises when the section is absent or empty. */
  function ActiveMoveEntries(active: Option<seq<ActiveEntry>>): (r: Result<seq<MoveEntry>>)
    ensures r.Err? <==> active.None? || |active.value| == 0
    ensures r.Err? ==> r.error == IndexError
    ensures r.Ok? ==> var all := active.value[0].moves.GetOr([]);
      |r.value| == Min(MaxActiveMoves, |all|) && r.value <= all
  {
    var section := active.GetOr([]);
    if |section| == 0 then Err(IndexError)
    else
      var all := section[0].moves.GetOr([]);
      Ok(if |all| <= MaxActiveMoves then all else all[..MaxActiveMoves])
  }

  /** The move one entry becomes: name `''`, pp 0 and not disabled where the entry is
      silent, and the facts pokeapi gives for the name's key. */
  function MoveFromEntry(e: MoveEntry, lookup: string -> ApiMove): (r: Result<MoveView>)
    ensures r.Err? <==> lookup(ApiKey(e.move.GetOr(""))).priority.None?
    ensures r.Ok? ==> r.value.name == e.move.GetOr("") && r.value.pp == e.pp.GetOr(0)
    ensures r.Ok? ==> r.value.disabled == e.disabled.GetOr(false) && r.value.category == Unset
    ensures r.Ok? ==> FillDataFields(lookup(ApiKey(r.value.name))) == Ok(r.value.facts)
  {
    var name := e.move.GetOr("");
    match FillDataFields(lookup(ApiKey(name)))
    case Err(err) => Err(err)
    case Ok(facts) => Ok(MoveView(name, e.pp.GetOr(0), e.disabled.GetOr(false), facts, Unset))
  }

  /** A move whose entry gives no pp is never possible. */
  lemma MissingPpNeverPossible(e: MoveEntry, lookup: string -> ApiMove)
    requires e.pp.None? && MoveFromEntry(e, lookup).Ok?
    ensures !CanUse(MoveFromEntry(e, lookup).value.disabled, MoveFromEntry(e, lookup).value.pp)
  {
  }

  /** The moves built from the entries in order, or the error of the first that fails. */
  function MovesOf(es: seq<MoveEntry>, lookup: string -> ApiMove): (r: Result<seq<MoveView>>)
    ensures r.Ok? <==> forall i :: 0 <= i < |es| ==> MoveFromEntry(es[i], lookup).Ok?
    ensures r.Ok? ==> |r.value| == |es| && forall i :: 0 <= i < |es| ==> MoveFromEntry(es[i], lookup) == Ok(r.value[i])
    ensures r.Err? ==> exists i :: 0 <= i < |es| && MoveFromEntry(es[i], lookup) == Err(r.error)
  {
    if |es| == 0 then Ok([])
    else
      match MovesOf(es[..|es| - 1], lookup)
      case Err(err) => Err(err)
      case Ok(prev) =>
        match MoveFromEntry(es[|es| - 1], lookup)
        case Err(err) => Err(err)
        case Ok(m) => Ok(prev + [m])
  }

  /** What `create_active_moves_list` returns for a request's `active` section. */
  function ActiveMovesOf(active: Option<seq<ActiveEntry>>, lookup: string -> ApiMove): (r: Result<seq<MoveView>>)
    ensures r.Ok? ==> |r.value| <= MaxActiveMoves
    ensures active.None? || |active.value| == 0 ==> r == Err(IndexError)
    ensures r.Ok? ==> var all := active.value[0].moves.GetOr([]);
      |r.value| == Min(MaxActiveMoves, |all|) &&
      forall i :: 0 <= i < |r.value| ==> MoveFromEntry(all[i], lookup) == Ok(r.value[i])
  {
    match ActiveMoveEntries(active)
    case Err(err) => Err(err)
    case Ok(es) => MovesOf(es, lookup)
  }

  /** The fields of each move, in order; `PokemonEntity.TeamViews` is the same for a
      team, over a different class with a different `View`. */
  function Views(ms: seq<Move>): (r: seq<MoveView>)
    reads ms
    ensures |r| == |ms| && forall i :: 0 <= i < |ms| ==> r[i] == ms[i].View()
  {
    seq(|ms|, i reads ms requires 0 <= i < |ms| => ms[i].View())
  }

  /** `create_active_moves_list`: one freshly built move per entry of the first four
      of `active[0].moves`, in order; `lookup` answers for pokeapi. */
  method CreateActiveMovesList(active: Option<seq<ActiveEntry>>, lookup: string -> ApiMove)
    returns (r: Result<seq<Move>>)
    ensures r.Ok? <==> ActiveMovesOf(active, lookup).Ok?
    ensures r.Err? ==> r.error == ActiveMovesOf(active, lookup).error
    ensures r.Ok? ==> Views(r.value) == ActiveMovesOf(active, lookup).value
    ensures r.Ok? ==> forall i :: 0 <= i < |r.value| ==> fresh(r.value[i])
  {
    var entries := ActiveMoveEntries(active);
    if entries.Err? {
      return Err(entries.error);
    }
    var es := entries.value;
    var list: seq<Move> := [];
    ghost var views: seq<MoveView> := [];
    for i := 0 to |es|
      invariant |list| == i && |views| == i
      invariant MovesOf(es[..i], lookup) == Ok(views)
      invariant forall j :: 0 <= j < i ==> fresh(list[j]) && list[j].View() == views[j]
    {
      var name := es[i].move.GetOr("");
      var pp := es[i].pp.GetOr(0);
      var disabled := es[i].disabled.GetOr(false);
      var facts := FillDataFields(lookup(ApiKey(name)));
      if facts.Err? {
        assert MoveFromEntry(es[i], lookup).Err?;
        return Err(facts.error);
      }
      var move := new Move(name, pp, disabled, facts.value, Unset);
      assert es[..i + 1][..i] == es[..i];
      list := list + [move];
      views := views + [move.View()];
    }
    assert es[..|es|] == es;
    assert Views(list) == views;
    r := Ok(list);
  }
}
