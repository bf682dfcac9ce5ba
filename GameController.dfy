/**
 * The Keno game-state controller: configuration (spots and drawings to play,
 * 0 meaning unset), the player's selection, the session flag that blocks
 * reconfiguration, and the pre-generated drawings of a session with a cursor
 * into them. Every mutator either refuses and changes nothing, or performs
 * one update.
 *
 * The two random steps receive the shuffled 80-number pool as a parameter:
 * any shuffle of 1..80 is allowed, so their contracts hold for every outcome
 * of the random shuffle.
 */
module GameControl {
  import opened Grid
  import PayoutTable

  /** The largest number of drawings a session may have. */
  const MaxDrawings := 4

  /** The spot counts a player may choose: exactly those with a payout row. */
  predicate IsPlayableSpots(n: int) {
    n == 1 || n == 4 || n == 8 || n == 10
  }

  predicate IsDrawingCount(d: int) {
    1 <= d <= MaxDrawings
  }

  /** Odds for each playable spot count, in hundredths (4.00 is 400). */
  const OddsHundredths: map<int, int> := map[1 := 400, 4 := 386, 8 := 997, 10 := 905]

  lemma PlayableSpotsHavePayoutRow(n: int)
    ensures IsPlayableSpots(n) <==> n in PayoutTable.Payouts
  {
  }

  /** What one selectNumber call answers, and the selection it leaves. */
  datatype Selected = Selected(accepted: bool, selection: seq<int>)

  /**
   * Toggling `n` in the selection `sel` when `spots` numbers are to be
   * played and `started` says whether a session is active.
   */
  function Select(started: bool, spots: int, sel: seq<int>, n: int): (r: Selected)
    ensures r.accepted <==> !started && spots != 0 && InGrid(n) && (n in sel || |sel| < spots)
    ensures !r.accepted ==> r.selection == sel
    ensures r.accepted ==> forall y :: y in r.selection <==> if y == n then n !in sel else y in sel
    ensures r.accepted && Distinct(sel) ==> |r.selection| == if n in sel then |sel| - 1 else |sel| + 1
    ensures ValidSelection(sel, spots) ==> ValidSelection(r.selection, spots)
    ensures r.accepted && n !in sel ==> r.selection == sel + [n]
    ensures r.accepted && n in sel ==> r.selection == Remove(sel, n)
  {
    if started then Selected(false, sel)
    else if spots == 0 then Selected(false, sel)
    else if n < 1 || n > GridSize then Selected(false, sel)
    else if n in sel then Selected(true, Remove(sel, n))
    else if |sel| >= spots then Selected(false, sel)
    else Selected(true, Insert(sel, n))
  }

  /**
   * Selecting the same number twice: the second call is accepted too and the
   * selection holds the same numbers as before; when the first call added the
   * number, the selection is restored exactly, order included.
   */
  lemma {:induction false} SelectTwiceRestores(started: bool, spots: int, sel: seq<int>, n: int)
    requires ValidSelection(sel, spots)
    requires Select(started, spots, sel, n).accepted
    ensures var twice := Select(started, spots, Select(started, spots, sel, n).selection, n);
      && twice.accepted
      && (forall y :: y in twice.selection <==> y in sel)
      && (n !in sel ==> twice.selection == sel)
  {
    if n !in sel {
      RemoveUndoesAppend(sel, n);
    }
  }

  /**
   * The drawing shown as current when the cursor is at `index`: the one at
   * that position, the last one once the cursor has run past the end, and
   * none while there are no drawings.
   */
  function DrawingAt(drawings: seq<seq<int>>, index: nat): seq<int> {
    if drawings == [] then []
    else if index < |drawings| then drawings[index]
    else drawings[|drawings| - 1]
  }

  /** What nextDrawing answers when the cursor is at `index` of `total` drawings. */
  predicate HasNext(index: int, total: int) {
    index + 1 < total
  }

  /** The answers of `k` successive nextDrawing calls from cursor `index`. */
  function NextResults(index: int, total: int, k: nat): (r: seq<bool>)
    ensures |r| == k
    decreases k
  {
    if k == 0 then [] else [HasNext(index, total)] + NextResults(index + 1, total, k - 1)
  }

  /** The i-th of those answers, counted from 0. */
  lemma {:induction false} NextResultsAt(index: int, total: int, k: nat, i: nat)
    requires i < k
    ensures NextResults(index, total, k)[i] == (index + i + 1 < total)
    decreases k
  {
    if i > 0 {
      NextResultsAt(index + 1, total, k - 1, i - 1);
    }
  }

  /**
   * After `d` drawings are prepared (cursor at 0), nextDrawing answers true
   * for its first d - 1 calls and false for every call after them.
   */
  lemma NextAfterPrepare(d: nat, k: nat)
    ensures forall i :: 0 <= i < k ==> (NextResults(0, d, k)[i] <==> i < d - 1)
  {
    forall i | 0 <= i < k ensures NextResults(0, d, k)[i] <==> i < d - 1 {
      NextResultsAt(0, d, k, i);
    }
  }

  /** Scoring: the numbers of the selection that the drawing also holds. */
  function Matches(sel: seq<int>, drawing: seq<int>): (r: set<int>)
    ensures forall x :: x in r <==> x in sel && x in drawing
    ensures |r| <= |sel| && |r| <= |drawing|
  {
    var m := Elements(sel) * Elements(drawing);
    ElementsBound(sel);
    ElementsBound(drawing);
    SubsetBound(m, Elements(sel));
    SubsetBound(m, Elements(drawing));
    m
  }

  /**
   * A 1-spot ticket against any drawing: one match paying 2 when the drawing
   * holds its number, otherwise no match and no payout.
   */
  lemma OneSpotScoring(n: int, drawing: seq<int>)
    ensures Matches([n], drawing) == if n in drawing then {n} else {}
    ensures PayoutTable.GetPayout(1, |Matches([n], drawing)|) == if n in drawing then 2 else 0
  {
  }

  /** One drawing: the first 20 numbers of a shuffled pool. */
  method DrawFromPool(pool: seq<int>) returns (drawing: seq<int>)
    requires IsShuffle(pool)
    ensures drawing == pool[..DrawSize]
    ensures IsDrawing(drawing)
  {
    ShuffleIsPermutationOfGrid(pool);
    drawing := [];
    for j := 0 to DrawSize
      invariant drawing == pool[..j]
    {
      drawing := drawing + [pool[j]];
    }
  }

  class GameController {
    var spotsToPlay: int
    var drawingsToPlay: int
    var drawingsStarted: bool
    /** The selected numbers in the order they were chosen. */
    var selected: seq<int>
    var allDrawings: seq<seq<int>>
    var currentDrawingIndex: int
    var currentDrawing: seq<int>

    ghost predicate Valid()
      reads this
    {
      && (spotsToPlay == 0 || IsPlayableSpots(spotsToPlay))
      && 0 <= drawingsToPlay <= MaxDrawings
      && ValidSelection(selected, spotsToPlay)
      && |allDrawings| <= MaxDrawings
      && (forall k :: 0 <= k < |allDrawings| ==> IsDrawing(allDrawings[k]))
      && 0 <= currentDrawingIndex
      && currentDrawing == DrawingAt(allDrawings, currentDrawingIndex)
    }

    constructor ()
      ensures Valid()
      ensures spotsToPlay == 0 && drawingsToPlay == 0 && !drawingsStarted
      ensures selected == [] && allDrawings == [] && currentDrawingIndex == 0 && currentDrawing == []
    {
      spotsToPlay := 0;
      drawingsToPlay := 0;
      drawingsStarted := false;
      selected := [];
      allDrawings := [];
      currentDrawingIndex := 0;
      currentDrawing := [];
    }

    /** Accepted exactly for 1, 4, 8 or 10 outside a session; then the selection is emptied. */
    method SetMaxSpots(spots: int) returns (ok: bool)
      requires Valid()
      modifies this`spotsToPlay, this`selected
      ensures Valid()
      ensures ok <==> !drawingsStarted && IsPlayableSpots(spots)
      ensures ok ==> spotsToPlay == spots && selected == []
      ensures !ok ==> spotsToPlay == old(spotsToPlay) && selected == old(selected)
    {
      if drawingsStarted {
        return false;
      }
      if spots == 1 || spots == 4 || spots == 8 || spots == 10 {
        spotsToPlay := spots;
        selected := [];
        return true;
      }
      return false;
    }

    /** Accepted exactly for 1 to 4 drawings outside a session. */
    method SetNumberOfDrawings(d: int) returns (ok: bool)
      requires Valid()
      modifies this`drawingsToPlay
      ensures Valid()
      ensures ok <==> !drawingsStarted && IsDrawingCount(d)
      ensures drawingsToPlay == if ok then d else old(drawingsToPlay)
    {
      if drawingsStarted {
        return false;
      }
      if d >= 1 && d <= 4 {
        drawingsToPlay := d;
        return true;
      }
      return false;
    }

    /** Toggles `n` in the selection; see Select for when it is accepted. */
    method SelectNumber(n: int) returns (ok: bool)
      requires Valid()
      modifies this`selected
      ensures Valid()
      ensures ok == Select(drawingsStarted, spotsToPlay, old(selected), n).accepted
      ensures selected == Select(drawingsStarted, spotsToPlay, old(selected), n).selection
    {
      if drawingsStarted {
        return false;
      }
      if spotsToPlay == 0 {
        return false;
      }
      if n < 1 || n > 80 {
        return false;
      }
      if n in selected {
        selected := Remove(selected, n);
        return true;
      } else {
        if |selected| >= spotsToPlay {
          return false;
        }
        selected := Insert(selected, n);
        return true;
      }
    }

    /**
     * Outside a session and with spots set, the selection becomes the first
     * spotsToPlay numbers of the shuffled pool: that many distinct grid
     * numbers. Otherwise nothing changes.
     */
    method AutoPick(pool: seq<int>)
      requires Valid()
      requires IsShuffle(pool)
      modifies this`selected
      ensures Valid()
      ensures drawingsStarted || spotsToPlay == 0 ==> selected == old(selected)
      ensures !drawingsStarted && spotsToPlay != 0 ==>
        selected == pool[..spotsToPlay] && |selected| == spotsToPlay
    {
      if drawingsStarted || spotsToPlay == 0 {
        return;
      }
      ShuffleIsPermutationOfGrid(pool);
      selected := [];
      for i := 0 to spotsToPlay
        invariant selected == pool[..i]
      {
        assert pool[i] !in pool[..i];
        selected := Insert(selected, pool[i]);
      }
    }

    /** Empties the selection, whether or not a session is active. */
    method ResetGrid()
      requires Valid()
      modifies this`selected
      ensures Valid()
      ensures selected == []
    {
      selected := [];
    }

    /** Starts a session when spots and drawings are both set; otherwise leaves the flag as it was. */
    method StartDrawing()
      requires Valid()
      modifies this`drawingsStarted
      ensures Valid()
      ensures drawingsStarted == (old(drawingsStarted) || (spotsToPlay != 0 && drawingsToPlay != 0))
    {
      if spotsToPlay == 0 || drawingsToPlay == 0 {
        return;
      }
      drawingsStarted := true;
    }

    method EndDrawingSession()
      requires Valid()
      modifies this`drawingsStarted
      ensures Valid()
      ensures !drawingsStarted
    {
      drawingsStarted := false;
    }

    /**
     * Replaces the drawings with drawingsToPlay new ones, the k-th taken from
     * the k-th shuffled pool, and puts the cursor on the first.
     */
    method PrepareDrawings(pools: seq<seq<int>>)
      requires Valid()
      requires |pools| == drawingsToPlay
      requires forall k :: 0 <= k < |pools| ==> IsShuffle(pools[k])
      modifies this`allDrawings, this`currentDrawingIndex, this`currentDrawing
      ensures Valid()
      ensures |allDrawings| == |pools| == drawingsToPlay
      ensures forall k :: 0 <= k < |pools| ==> |pools[k]| == GridSize && allDrawings[k] == pools[k][..DrawSize]
      ensures forall k :: 0 <= k < |allDrawings| ==> IsDrawing(allDrawings[k])
      ensures currentDrawingIndex == 0 && CurrentDrawingNumber() == 1
      ensures currentDrawing == if allDrawings == [] then [] else allDrawings[0]
    {
      allDrawings := [];
      for i := 0 to drawingsToPlay
        invariant |allDrawings| == i
        invariant forall k :: 0 <= k < i ==> allDrawings[k] == pools[k][..DrawSize]
        invariant forall k :: 0 <= k < i ==> IsDrawing(allDrawings[k])
      {
        var drawing := DrawFromPool(pools[i]);
        allDrawings := allDrawings + [drawing];
      }
      currentDrawingIndex := 0;
      if allDrawings != [] {
        currentDrawing := allDrawings[0];
      } else {
        currentDrawing := [];
      }
    }

    /**
     * Always moves the cursor on by one; answers whether it now points at a
     * drawing, which then becomes current. Past the end the current drawing
     * stays the last one.
     */
    method NextDrawing() returns (more: bool)
      requires Valid()
      modifies this`currentDrawingIndex, this`currentDrawing
      ensures Valid()
      ensures currentDrawingIndex == old(currentDrawingIndex) + 1
      ensures more == HasNext(old(currentDrawingIndex), |allDrawings|)
      ensures currentDrawing == if more then allDrawings[currentDrawingIndex] else old(currentDrawing)
    {
      currentDrawingIndex := currentDrawingIndex + 1;
      if currentDrawingIndex < |allDrawings| {
        currentDrawing := allDrawings[currentDrawingIndex];
        return true;
      }
      return false;
    }

    /** The selected numbers that the current drawing also holds. */
    function GetMatches(): (r: set<int>)
      reads this
      requires Valid()
      ensures r == Matches(selected, currentDrawing)
      ensures forall x :: x in r ==> InGrid(x)
      ensures |r| <= spotsToPlay && |r| <= DrawSize
    {
      Matches(selected, currentDrawing)
    }

    /** The 1-based position of the current drawing. */
    function CurrentDrawingNumber(): (r: int)
      reads this
      requires Valid()
      ensures r >= 1
    {
      currentDrawingIndex + 1
    }

    function TotalDrawings(): (r: int)
      reads this
      requires Valid()
      ensures 0 <= r <= MaxDrawings
    {
      |allDrawings|
    }

    /** The payout table's entry for the configured spot count. */
    function GetPayout(matches: int): (r: int)
      reads this
      ensures r >= 0
      ensures r > 0 ==> 0 <= matches <= spotsToPlay
      ensures r == PayoutTable.GetPayout(spotsToPlay, matches)
    {
      PayoutTable.GetPayout(spotsToPlay, matches)
    }

    /** Odds in hundredths for the configured spot count; 0 when none are known. */
    function GetOddsForSpots(): (r: int)
      reads this
      ensures r >= 0
      ensures r != 0 <==> IsPlayableSpots(spotsToPlay)
    {
      if spotsToPlay in OddsHundredths then OddsHundredths[spotsToPlay] else 0
    }
  }

  /** Taking one answer off the front of the remaining ones keeps the whole sequence the same. */
  lemma NextResultsStep(answers: seq<bool>, more: bool, index: int, total: int, left: nat, whole: seq<bool>)
    requires left > 0 && more == HasNext(index, total)
    requires answers + NextResults(index, total, left) == whole
    ensures (answers + [more]) + NextResults(index + 1, total, left - 1) == whole
  {
    assert NextResults(index, total, left) == [more] + NextResults(index + 1, total, left - 1);
  }

  /**
   * `k` successive nextDrawing calls: their answers are NextResults from the
   * cursor they start at, and the cursor ends `k` positions further on.
   */
  method Advance(g: GameController, k: nat) returns (answers: seq<bool>)
    requires g.Valid()
    modifies g`currentDrawingIndex, g`currentDrawing
    ensures g.Valid()
    ensures g.currentDrawingIndex == old(g.currentDrawingIndex) + k
    ensures answers == NextResults(old(g.currentDrawingIndex), |g.allDrawings|, k)
  {
    ghost var start := g.currentDrawingIndex;
    ghost var total := |g.allDrawings|;
    ghost var expected := NextResults(start, total, k);
    answers := [];
    var left: nat := k;
    while left > 0
      invariant g.Valid()
      invariant |g.allDrawings| == total
      invariant left <= k && g.currentDrawingIndex == start + (k - left)
      invariant answers + NextResults(g.currentDrawingIndex, total, left) == expected
    {
      ghost var cursor := g.currentDrawingIndex;
      var more := g.NextDrawing();
      NextResultsStep(answers, more, cursor, total, left, expected);
      answers := answers + [more];
      left := left - 1;
    }
    assert NextResults(g.currentDrawingIndex, total, 0) == [];
    assert answers + [] == answers;
  }

  /**
   * A session's drawings: prepare `drawingsToPlay` of them, then call
   * nextDrawing `k` times. The first drawingsToPlay - 1 calls answer true and
   * every later call answers false.
   */
  method PlayDrawings(g: GameController, pools: seq<seq<int>>, k: nat) returns (answers: seq<bool>)
    requires g.Valid()
    requires |pools| == g.drawingsToPlay
    requires forall j :: 0 <= j < |pools| ==> IsShuffle(pools[j])
    modifies g`allDrawings, g`currentDrawingIndex, g`currentDrawing
    ensures g.Valid()
    ensures |g.allDrawings| == g.drawingsToPlay && g.CurrentDrawingNumber() == k + 1
    ensures |answers| == k
    ensures forall i :: 0 <= i < k ==> (answers[i] <==> i < g.drawingsToPlay - 1)
  {
    g.PrepareDrawings(pools);
    answers := Advance(g, k);
    NextAfterPrepare(g.drawingsToPlay, k);
  }

  /**
   * A 4-spot ticket takes four numbers and refuses a fifth: the answers of
   * the five selectNumber calls and the final selection size.
   */
  method ScenarioCapacity() returns (first: bool, second: bool, third: bool, fourth: bool, fifth: bool, size: int)
    ensures first && second && third && fourth && !fifth && size == 4
  {
    var g := new GameController();
    var ok := g.SetMaxSpots(4);
    assert ok;
    first := g.SelectNumber(5);
    assert |g.selected| == 1;
    second := g.SelectNumber(12);
    assert |g.selected| == 2;
    third := g.SelectNumber(33);
    assert |g.selected| == 3;
    fourth := g.SelectNumber(40);
    assert |g.selected| == 4;
    fifth := g.SelectNumber(7);
    size := |g.selected|;
  }

  /**
   * Two prepared drawings: the total is 2 and the drawing number starts at 1;
   * the first nextDrawing reaches drawing 2, the second runs out.
   */
  method ScenarioTwoDrawings() returns (total: int, number: int, first: bool, second: bool)
    ensures total == 2 && number == 1 && first && !second
  {
    var g := new GameController();
    var ok := g.SetNumberOfDrawings(2);
    assert ok;
    var pool := OrderedPool();
    g.PrepareDrawings([pool, pool]);
    total := g.TotalDrawings();
    number := g.CurrentDrawingNumber();
    first := g.NextDrawing();
    assert g.CurrentDrawingNumber() == 2;
    second := g.NextDrawing();
  }

}
