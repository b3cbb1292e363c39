/** Where offered lines are written (internal/bettingpg/setline.go, reprice.go):
    every repricing starts from the opening odds and the accepted stakes, never
    from the line it replaces. */
module LineStore {
  import opened Results
  import opened Ledger
  import opened Wagers
  import opened Pricing
  import opened LineMovement

  /** An audit row of one price that moved. */
  datatype PriceChange = PriceChange(selection: Id, before: int, after: int, stake: int)

  function StakeOn(stakes: map<Id, int>, id: Id): int {
    if id in stakes then stakes[id] else 0
  }

  function Inputs(ids: seq<Id>, opening: seq<int>, stakes: map<Id, int>): (r: seq<SelectionInput>)
    requires |ids| == |opening|
    ensures |r| == |ids|
    ensures forall i :: 0 <= i < |ids| ==> r[i] == SelectionInput(opening[i], StakeOn(stakes, ids[i]))
  {
    seq(|ids|, i requires 0 <= i < |ids| => SelectionInput(opening[i], StakeOn(stakes, ids[i])))
  }

  /** The engine moves the line of a dynamic market with two sides and liquidity;
      any other market offers its opening line. */
  predicate IsMoved(dynamic: bool, liquidityCents: int, ids: seq<Id>) {
    dynamic && |ids| >= 2 && liquidityCents > 0
  }

  ghost predicate IsTarget(exp: real -> real, dynamic: bool, liquidityCents: int, ids: seq<Id>, opening: seq<int>,
                           stakes: map<Id, int>, target: seq<int>)
    requires |ids| == |opening|
  {
    if IsMoved(dynamic, liquidityCents, ids) then
      exists board :: IsBoardFor(exp, liquidityCents, Inputs(ids, opening, stakes), target, board)
    else target == opening
  }

  ghost predicate IsBoardFor(exp: real -> real, liquidityCents: int, inputs: seq<SelectionInput>, target: seq<int>, board: Board) {
    && IsRepriced(exp, board) && board.selections == inputs && board.liquidityCents == liquidityCents
    && board.odds == target
  }

  /** Opening odds, stakes and liquidity leave only one line to offer: whatever
      happened in between, the same action brings the same line back. */
  lemma TargetIsUnique(exp: real -> real, dynamic: bool, liquidityCents: int, ids: seq<Id>, opening: seq<int>,
                       stakes: map<Id, int>, a: seq<int>, b: seq<int>)
    requires IsExponential(exp) && |ids| == |opening|
    requires IsTarget(exp, dynamic, liquidityCents, ids, opening, stakes, a)
    requires IsTarget(exp, dynamic, liquidityCents, ids, opening, stakes, b)
    ensures a == b
  {
    if IsMoved(dynamic, liquidityCents, ids) {
      var inputs := Inputs(ids, opening, stakes);
      var x :| IsBoardFor(exp, liquidityCents, inputs, a, x);
      var y :| IsBoardFor(exp, liquidityCents, inputs, b, y);
      RepricingIsDetermined(exp, x, y);
    }
  }

  /** One audit row for each line that moves, in selection order. */
  function Changes(ids: seq<Id>, before: seq<int>, after: seq<int>, stakes: map<Id, int>): seq<PriceChange>
    requires |ids| == |before| == |after|
  {
    if ids == [] then []
    else
      var n := |ids| - 1;
      Changes(ids[..n], before[..n], after[..n], stakes)
        + if before[n] == after[n] then [] else [PriceChange(ids[n], before[n], after[n], StakeOn(stakes, ids[n]))]
  }

  lemma {:induction false} NoChanges(ids: seq<Id>, before: seq<int>, after: seq<int>, stakes: map<Id, int>)
    requires |ids| == |before| == |after|
    ensures Changes(ids, before, after, stakes) == [] <==> before == after
  {
    if ids != [] {
      var n := |ids| - 1;
      NoChanges(ids[..n], before[..n], after[..n], stakes);
      assert before == before[..n] + [before[n]] && after == after[..n] + [after[n]];
    }
  }

  /** The engine prices a dynamic market of two sides or more that has liquidity,
      from its opening lines and the stake on each side; any other market offers its
      opening line. */
  lemma TargetIsEnginesOrOpening(exp: real -> real, dynamic: bool, liquidityCents: int, ids: seq<Id>, opening: seq<int>,
                                 stakes: map<Id, int>, target: seq<int>) returns (board: Board)
    requires |ids| == |opening| && IsTarget(exp, dynamic, liquidityCents, ids, opening, stakes, target)
    ensures !dynamic || |ids| < 2 || liquidityCents <= 0 ==> target == opening
    ensures dynamic && |ids| >= 2 && liquidityCents > 0 ==>
      && IsRepriced(exp, board) && board.liquidityCents == liquidityCents && board.odds == target
      && |board.selections| == |ids|
      && forall i :: 0 <= i < |ids| ==>
           board.selections[i] == SelectionInput(opening[i], if ids[i] in stakes then stakes[ids[i]] else 0)
  {
    board := Board([], 0, 0.0, [], []);
    if IsMoved(dynamic, liquidityCents, ids) {
      board :| IsBoardFor(exp, liquidityCents, Inputs(ids, opening, stakes), target, board);
    }
  }

  /** Repricing a market with fewer than two selections is a no-op exactly when it
      offers its opening line: otherwise it writes that line across. */
  lemma FewSelectionsFollowOpening(exp: real -> real, dynamic: bool, liquidityCents: int, ids: seq<Id>, opening: seq<int>,
                                   offered: seq<int>, stakes: map<Id, int>, target: seq<int>)
    requires |ids| < 2 && |ids| == |opening| == |offered| == |target|
    requires IsTarget(exp, dynamic, liquidityCents, ids, opening, stakes, target)
    ensures target == opening
    ensures Changes(ids, offered, target, stakes) == [] <==> offered == opening
  {
    NoChanges(ids, offered, target, stakes);
  }

  /** One selection opened at +150 and offered at +120 moves. */
  lemma OneSelectionMoves(exp: real -> real, stakes: map<Id, int>, target: seq<int>)
    requires IsTarget(exp, true, 100000, [1], [150], stakes, target) && |target| == 1
    ensures Changes([1], [120], target, stakes) == [PriceChange(1, 120, 150, StakeOn(stakes, 1))]
  {
    FewSelectionsFollowOpening(exp, true, 100000, [1], [150], [120], stakes, target);
    assert Changes([1][..0], [120][..0], target[..0], stakes) == [];
  }

  lemma ChangesStep(ids: seq<Id>, before: seq<int>, after: seq<int>, stakes: map<Id, int>, i: nat)
    requires |ids| == |before| == |after| && i < |ids|
    ensures Changes(ids[..i + 1], before[..i + 1], after[..i + 1], stakes)
         == Changes(ids[..i], before[..i], after[..i], stakes)
            + if before[i] == after[i] then [] else [PriceChange(ids[i], before[i], after[i], StakeOn(stakes, ids[i]))]
  {
    assert ids[..i + 1][..i] == ids[..i] && before[..i + 1][..i] == before[..i] && after[..i + 1][..i] == after[..i];
  }

  class Lines {
    const dynamic: bool
    const liquidityCents: int
    const ids: seq<Id>
    var state: MarketState
    var opening: seq<int>
    var offered: seq<int>
    var changes: seq<PriceChange>

    predicate Valid()
      reads this
    {
      && |opening| == |offered| == |ids|
      && (forall i :: 0 <= i < |opening| ==> ValidOdds(opening[i]))
    }

    /** The offered line is the one the opening odds and `stakes` call for. */
    ghost predicate OnTarget(exp: real -> real, stakes: map<Id, int>)
      requires |opening| == |ids|
      reads this
    {
      IsTarget(exp, dynamic, liquidityCents, ids, opening, stakes, offered)
    }

    constructor (dynamic: bool, liquidityCents: int, ids: seq<Id>, opening: seq<int>)
      requires |ids| == |opening| && forall i :: 0 <= i < |opening| ==> ValidOdds(opening[i])
      ensures Valid() && this.dynamic == dynamic && this.liquidityCents == liquidityCents && this.ids == ids
      ensures this.opening == opening && offered == opening && changes == [] && state == Draft
    {
      this.dynamic, this.liquidityCents, this.ids := dynamic, liquidityCents, ids;
      this.opening, this.offered := opening, opening;
      changes, state := [], Draft;
    }

    /** The target line of every selection. */
    method Target(exp: real -> real, stakes: map<Id, int>) returns (target: seq<int>)
      requires Valid() && IsExponential(exp) && forall id :: id in stakes ==> stakes[id] >= 0
      ensures |target| == |ids| && IsTarget(exp, dynamic, liquidityCents, ids, opening, stakes, target)
    {
      if IsMoved(dynamic, liquidityCents, ids) {
        var inputs := [];
        for i := 0 to |ids|
          invariant inputs == Inputs(ids, opening, stakes)[..i]
        {
          inputs := inputs + [SelectionInput(opening[i], StakeOn(stakes, ids[i]))];
        }
        assert inputs == Inputs(ids, opening, stakes);
        var repriced, board := Reprice(exp, inputs, liquidityCents);
        assert ValidInputs(inputs);
        assert IsBoardFor(exp, liquidityCents, inputs, repriced.value, board);
        return repriced.value;
      }
      return opening;
    }

    /** repriceInTx's writing loop: each line that moves, with its audit row. */
    method WriteLines(target: seq<int>, stakes: map<Id, int>) returns (changed: bool)
      requires Valid() && |target| == |ids|
      modifies this`offered, this`changes
      ensures offered == target
      ensures changes == old(changes) + Changes(ids, old(offered), target, stakes)
      ensures changed <==> old(offered) != target
    {
      ghost var before := offered;
      changed := false;
      for i := 0 to |ids|
        invariant |offered| == |ids| && forall k :: 0 <= k < |ids| ==> offered[k] == if k < i then target[k] else before[k]
        invariant changes == old(changes) + Changes(ids[..i], before[..i], target[..i], stakes)
        invariant changed <==> exists k :: 0 <= k < i && before[k] != target[k]
      {
        ChangesStep(ids, before, target, stakes, i);
        if target[i] != offered[i] {
          changes := changes + [PriceChange(ids[i], offered[i], target[i], StakeOn(stakes, ids[i]))];
          offered := offered[i := target[i]];
          changed := true;
        }
      }
      assert offered == target;
      assert ids[..|ids|] == ids && before[..|ids|] == before && target[..|ids|] == target;
    }

    /** repriceInTx: the offered line becomes the target, with one audit row for
        each price that moved; on target already, nothing is written. */
    method RepriceInTx(exp: real -> real, stakes: map<Id, int>) returns (changed: bool)
      requires Valid() && IsExponential(exp) && forall id :: id in stakes ==> stakes[id] >= 0
      modifies this`offered, this`changes
      ensures Valid() && OnTarget(exp, stakes)
      ensures changes == old(changes) + Changes(ids, old(offered), offered, stakes)
      ensures changed <==> offered != old(offered)
      ensures old(OnTarget(exp, stakes)) ==> !changed && changes == old(changes)
    {
      var target := Target(exp, stakes);
      ghost var onTarget, before := OnTarget(exp, stakes), offered;
      changed := WriteLines(target, stakes);
      if onTarget {
        TargetIsUnique(exp, dynamic, liquidityCents, ids, opening, stakes, before, target);
      }
      NoChanges(ids, before, target, stakes);
    }

    /** RepriceMarketAfterWager: only an open, dynamic market moves. */
    method RepriceAfterWager(exp: real -> real, stakes: map<Id, int>) returns (changed: bool)
      requires Valid() && IsExponential(exp) && forall id :: id in stakes ==> stakes[id] >= 0
      modifies this`offered, this`changes
      ensures Valid()
      ensures dynamic && state == Open ==> OnTarget(exp, stakes) && (changed <==> offered != old(offered))
      ensures changes == old(changes) + Changes(ids, old(offered), offered, stakes)
      ensures !(dynamic && state == Open) ==> !changed && offered == old(offered) && changes == old(changes)
    {
      if !dynamic || state != Open {
        NoChanges(ids, offered, offered, stakes);
        return false;
      }
      changed := RepriceInTx(exp, stakes);
    }

    /** SetOpeningLine: a hand-set line goes through the same arithmetic. */
    method SetOpeningLine(exp: real -> real, selection: Id, odds: int, stakes: map<Id, int>) returns (r: Result<bool>)
      requires Valid() && IsExponential(exp) && forall id :: id in stakes ==> stakes[id] >= 0
      modifies this`opening, this`offered, this`changes
      ensures Valid()
      ensures r.Ok? <==> ValidOdds(odds) && (state == Open || state == Draft) && selection in ids
      ensures r.Ok? ==> OnTarget(exp, stakes)
      ensures r.Ok? ==> exists i :: 0 <= i < |ids| && ids[i] == selection && opening == old(opening)[i := odds]
      ensures r.Err? ==> opening == old(opening) && offered == old(offered) && changes == old(changes)
    {
      if !ValidOdds(odds) {
        return Err(InvalidOdds);
      }
      if state != Open && state != Draft {
        return Err(Transition);
      }
      var i := 0;
      while i < |ids| && ids[i] != selection
        invariant 0 <= i <= |ids| && forall k :: 0 <= k < i ==> ids[k] != selection
      {
        i := i + 1;
      }
      if i == |ids| {
        return Err(NotFound);
      }
      opening := opening[i := odds];
      var changed := RepriceInTx(exp, stakes);
      return Ok(changed);
    }
  }
}
