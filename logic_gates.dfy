/**
 * A logic-gate simulator on the pads of a Launchpad Pro. Holding a side
 * button and pressing a pad wires that pad: as a copy of the held button's
 * signal (an INPUT) or, for the six top buttons, as a gate whose sources are
 * the pads at index - 1 and, for every gate other than NOT, index - 2; for a
 * gate in column 1 that second source is the previous row's right-hand output
 * button. Every timer call re-evaluates the 8 x 8 pads in place, row by
 * row, and routes each row's last signal to the row's right-hand button.
 */
module LogicGates {
  import opened Pads

  /** `CLOCK_INDEX`: the button whose signal the timer flips. */
  const ClockIndex: U8 := 10
  /** `AND_INDEX` .. `NOR_INDEX`: the top buttons that select a gate. */
  const AndIndex: U8 := 91
  const OrIndex: U8 := 92
  const XorIndex: U8 := 93
  const NotIndex: U8 := 94
  const NandIndex: U8 := 95
  const NorIndex: U8 := 96

  datatype CellType = Empty | Input | Gate
  datatype GateType = And | Or | Xor | Not | Nand | Nor

  /** `struct cell`. */
  datatype Cell = Cell(kind: CellType, inputIndex: U8, gateType: GateType, gateA: U8, gateB: U8, output: U8)

  /** A zero-initialised `struct cell`. */
  const Blank := Cell(Empty, 0, And, 0, 0, 0)

  // ---------------------------------------------------------------------------
  // Buttons

  /** `is_input_button`: the buttons that can be held. */
  function IsInputButton(index: U8): (r: bool)
    ensures r <==> 0 < index <= 10 || 90 < index < 97 || (10 < index < 90 && index % 10 == 9)
  {
    (index > 90 && index < 97) || (index > 0 && index < 11) || index == 19 || index == 29 || index == 39
    || index == 49 || index == 59 || index == 69 || index == 79 || index == 89
  }

  /** `is_user_input_button`: the bottom row, whose signals the user sets. */
  function IsUserInputButton(index: U8): (r: bool)
    ensures r ==> IsInputButton(index)
    ensures r <==> 1 <= index <= 8
  {
    index > 0 && index < 9
  }

  /** The held buttons that select a gate rather than an INPUT. */
  predicate IsGateButton(held: U8)
  {
    AndIndex <= held <= NorIndex
  }

  /** The gate each top button selects, in the order of the buttons. */
  function GateFor(held: U8): GateType
    requires IsGateButton(held)
  {
    [And, Or, Xor, Not, Nand, Nor][held - AndIndex]
  }

  // ---------------------------------------------------------------------------
  // Configuring a pad: the `value` branch of `app_surface_event`

  /** The `switch (held_button_index)`: a gate over the pads at index - 1 and index - 2, or an INPUT. */
  function Configure(c: Cell, index: U8, held: U8): (r: Cell)
    ensures r.inputIndex == held && r.output == c.output
    ensures IsGateButton(held) ==>
      && r.kind == Gate && r.gateType == GateFor(held) && r.gateA == Wrap(index - 1)
      && r.gateB == (if held == NotIndex then c.gateB else Wrap(index - 2))
    ensures !IsGateButton(held) ==> r == c.(kind := Input, inputIndex := held)
  {
    if held == AndIndex then
      c.(inputIndex := held, gateType := And, kind := Gate, gateA := Wrap(index - 1), gateB := Wrap(index - 2))
    else if held == OrIndex then
      c.(inputIndex := held, gateType := Or, kind := Gate, gateA := Wrap(index - 1), gateB := Wrap(index - 2))
    else if held == XorIndex then
      c.(inputIndex := held, gateType := Xor, kind := Gate, gateA := Wrap(index - 1), gateB := Wrap(index - 2))
    else if held == NotIndex then
      c.(inputIndex := held, gateType := Not, kind := Gate, gateA := Wrap(index - 1))
    else if held == NandIndex then
      c.(inputIndex := held, gateType := Nand, kind := Gate, gateA := Wrap(index - 1), gateB := Wrap(index - 2))
    else if held == NorIndex then
      c.(inputIndex := held, gateType := Nor, kind := Gate, gateA := Wrap(index - 1), gateB := Wrap(index - 2))
    else
      c.(inputIndex := held, kind := Input)
  }

  /** A press while `held` is held: the same button again unsets the pad, any other configures it. */
  function Press(c: Cell, index: U8, held: U8): (r: Cell)
    ensures r.output == c.output
    ensures c.inputIndex == held ==> r == c.(inputIndex := 0, kind := Empty)
    ensures c.inputIndex != held ==> r == Configure(c, index, held)
    ensures r.kind == Empty <==> c.inputIndex == held
  {
    if c.inputIndex == held then c.(inputIndex := 0, kind := Empty) else Configure(c, index, held)
  }

  // ---------------------------------------------------------------------------
  // Evaluating a pad

  /** The gates over truth values. */
  predicate Holds(t: GateType, p: bool, q: bool)
  {
    match t
    case And => p && q
    case Or => p || q
    case Xor => p != q
    case Not => !p
    case Nand => !(p && q)
    case Nor => !(p || q)
  }

  /** The gate `switch` of `app_timer_event`: on signals 0 and 1 it computes the gate and yields 0 or 1. */
  function GateValue(t: GateType, a: U8, b: U8): (r: U8)
    ensures a <= 1 && b <= 1 ==> r <= 1 && (r == 1 <==> Holds(t, a == 1, b == 1))
    ensures t == Not ==> r == Truth(a == 0)
  {
    match t
    case And => Truth(a != 0 && b != 0)
    case Or => Truth(a != 0 || b != 0)
    case Xor => BitXor(a, b)
    case Not => Truth(a == 0)
    case Nand => Truth(!(a != 0 && b != 0))
    case Nor => Truth(!(a != 0 || b != 0))
  }

  /** Every signal is 0 or 1. */
  predicate Bits(g: seq<Cell>)
  {
    forall k :: 0 <= k < |g| ==> g[k].output <= 1
  }

  /** The signal of pad i; a pad outside the array reads as 0. */
  function Signal(g: seq<Cell>, i: int): (r: U8)
    ensures Bits(g) ==> r <= 1
  {
    if 0 <= i < |g| then g[i].output else 0
  }

  /** The new signal of a pad: an INPUT copies its source, a GATE computes, an EMPTY pad is 0. */
  function Evaluate(g: seq<Cell>, c: Cell): (r: U8)
    ensures Bits(g) ==> r <= 1
  {
    match c.kind
    case Input => Signal(g, c.inputIndex)
    case Gate => GateValue(c.gateType, Signal(g, c.gateA), Signal(g, c.gateB))
    case Empty => 0
  }

  /** Two grids that differ at most in their signals. */
  predicate SameWiring(g: seq<Cell>, h: seq<Cell>)
  {
    |g| == |h| && forall k :: 0 <= k < |g| ==> g[k].(output := 0) == h[k].(output := 0)
  }

  // ---------------------------------------------------------------------------
  // One timer call's propagation, as a function of the grid before it

  /** The body of the inner loop at pad k. */
  function Visit(g: seq<Cell>, k: int): (r: seq<Cell>)
    requires 0 <= k < |g|
  {
    g[k := g[k].(output := Evaluate(g, g[k]))]
  }

  /** `last_row_value` after columns 1..n of row y: the signal of the last INPUT or GATE among them, or 0. */
  function LastOf(g: seq<Cell>, y: int, n: int): (r: U8)
    requires |g| == ButtonCount && 0 < y < 9 && 0 <= n < 9
    ensures Bits(g) ==> r <= 1
  {
    if n == 0 then 0
    else if g[Index(n, y)].kind != Empty then g[Index(n, y)].output
    else LastOf(g, y, n - 1)
  }

  /** The end of a row's pass: its right-hand button takes `last_row_value`. */
  function Finish(g: seq<Cell>, y: int): (r: seq<Cell>)
    requires |g| == ButtonCount && 0 < y < 9
  {
    g[Index(9, y) := g[Index(9, y)].(output := LastOf(g, y, 8))]
  }

  /** The grid as the scan stands before step x of row y. */
  function Scan(g: seq<Cell>, x: int, y: int): (r: seq<Cell>)
    requires |g| == ButtonCount && At(x, y)
    ensures |r| == ButtonCount
    decreases y, x
  {
    if x == 10 then Finish(Scan(g, 9, y), y)
    else if x > 1 then Visit(Scan(g, x - 1, y), Index(x - 1, y))
    else if y > 1 then Scan(g, 10, y - 1)
    else g
  }

  /** The propagation of one timer call: rows 1..8, each its pads left to right and then its right-hand button. */
  function Propagate(g: seq<Cell>): (r: seq<Cell>)
    requires |g| == ButtonCount
    ensures |r| == ButtonCount
  {
    Scan(g, 1, 9)
  }

  // ---------------------------------------------------------------------------
  // What a scan leaves behind

  /** Visiting column x - 1 changes only that pad. */
  lemma VisitStep(g: seq<Cell>, x: int, y: int, a: int, b: int)
    requires |g| == ButtonCount && 1 < x < 10 && 0 < y < 9 && Pad(a, b) && !(a == x - 1 && b == y)
    ensures Scan(g, x, y)[Index(a, b)] == Scan(g, x - 1, y)[Index(a, b)]
  {
  }

  /** Finishing row y changes only its right-hand button. */
  lemma FinishStep(g: seq<Cell>, y: int, a: int, b: int)
    requires |g| == ButtonCount && 0 < y < 9 && Pad(a, b) && !(a == 9 && b == y)
    ensures Scan(g, 10, y)[Index(a, b)] == Scan(g, 9, y)[Index(a, b)]
  {
  }

  /** A pad the scan has not yet written holds its value from before the call. */
  lemma {:induction false} ScanUnvisited(g: seq<Cell>, x: int, y: int, a: int, b: int)
    requires |g| == ButtonCount && At(x, y) && Pad(a, b)
    requires !(0 < a && 0 < b < 9 && Pos(a, b) < Pos(x, y))
    ensures Scan(g, x, y)[Index(a, b)] == g[Index(a, b)]
    decreases y, x
  {
    if x == 10 {
      ScanUnvisited(g, 9, y, a, b);
      FinishStep(g, y, a, b);
    } else if x > 1 {
      ScanUnvisited(g, x - 1, y, a, b);
      VisitStep(g, x, y, a, b);
    } else if y > 1 {
      ScanUnvisited(g, 10, y - 1, a, b);
    }
  }

  /** One step of the scan changes only the pad it visits, or the row's right-hand button. */
  lemma ScanAdvance(g: seq<Cell>, x: int, y: int, a: int, b: int)
    requires |g| == ButtonCount && 1 <= x < 10 && 0 < y < 9 && Pad(a, b) && !(a == x && b == y)
    ensures Scan(g, x + 1, y)[Index(a, b)] == Scan(g, x, y)[Index(a, b)]
  {
    if x == 9 {
      FinishStep(g, y, a, b);
    } else {
      VisitStep(g, x + 1, y, a, b);
    }
  }

  /** A pad the scan has passed, or never writes, already holds its final value. */
  lemma {:induction false} ScanIsFinal(g: seq<Cell>, x: int, y: int, a: int, b: int)
    requires |g| == ButtonCount && At(x, y) && Pad(a, b) && !Pending(a, b, x, y)
    ensures Propagate(g)[Index(a, b)] == Scan(g, x, y)[Index(a, b)]
    decreases 9 - y, 10 - x
  {
    if y < 9 {
      if x < 10 {
        assert !Pending(a, b, x + 1, y);
        ScanIsFinal(g, x + 1, y, a, b);
        ScanAdvance(g, x, y, a, b);
      } else {
        assert Scan(g, 1, y + 1) == Scan(g, 10, y);
        ScanIsFinal(g, 1, y + 1, a, b);
      }
    }
  }

  /** Each interior pad is final once visited: its signal is evaluated on the grid as the scan reaches it. */
  lemma VisitIsFinal(g: seq<Cell>, x: int, y: int)
    requires |g| == ButtonCount && InGrid(x, y)
    ensures var s := Scan(g, x, y);
      Propagate(g)[Index(x, y)] == g[Index(x, y)].(output := Evaluate(s, g[Index(x, y)]))
  {
    ScanIsFinal(g, x + 1, y, x, y);
    ScanUnvisited(g, x, y, x, y);
  }

  /** `last_row_value` reads only columns 1..n of its row. */
  lemma {:induction false} LastOfFrame(g: seq<Cell>, h: seq<Cell>, y: int, n: int)
    requires |g| == ButtonCount && |h| == ButtonCount && 0 < y < 9 && 0 <= n < 9
    requires forall a :: 0 < a <= n ==> g[Index(a, y)] == h[Index(a, y)]
    ensures LastOf(g, y, n) == LastOf(h, y, n)
  {
    if n > 0 {
      LastOfFrame(g, h, y, n - 1);
    }
  }

  /** Each row's right-hand button ends up with the signal of the row's last INPUT or GATE, or 0. */
  lemma RowOutput(g: seq<Cell>, y: int)
    requires |g| == ButtonCount && 0 < y < 9
    ensures Propagate(g)[Index(9, y)].output == LastOf(Propagate(g), y, 8)
  {
    var s := Scan(g, 9, y);
    ScanIsFinal(g, 10, y, 9, y);
    forall a | 0 < a <= 8
      ensures Propagate(g)[Index(a, y)] == s[Index(a, y)]
    {
      ScanIsFinal(g, 9, y, a, y);
    }
    LastOfFrame(Propagate(g), s, y, 8);
  }

  /**
   * A gate reads the new signals of its sources at index - 1 and index - 2: the gates of a row settle
   * in one call. For a gate in column 1 the second source is the previous row's output button.
   */
  lemma GateSettles(g: seq<Cell>, x: int, y: int)
    requires |g| == ButtonCount && InGrid(x, y)
    requires var c := g[Index(x, y)];
      c.kind == Gate && c.gateA as int == Index(x, y) - 1 && (c.gateType == Not || c.gateB as int == Index(x, y) - 2)
    ensures var p := Propagate(g);
      p[Index(x, y)].output == GateValue(g[Index(x, y)].gateType, p[Index(x, y) - 1].output, p[Index(x, y) - 2].output)
  {
    var k := Index(x, y);
    var c := g[k];
    var s := Scan(g, x, y);
    var p := Propagate(g);
    VisitIsFinal(g, x, y);
    assert p[k].output == GateValue(c.gateType, Signal(s, c.gateA as int), Signal(s, c.gateB as int));
    ScanIsFinal(g, x, y, x - 1, y);
    assert p[k - 1].output == Signal(s, k - 1);
    if x == 1 {
      ScanIsFinal(g, x, y, 9, y - 1);
    } else {
      ScanIsFinal(g, x, y, x - 2, y);
    }
    assert p[k - 2].output == Signal(s, k - 2);
  }

  /**
   * A two-input gate in column 1 of rows 2..8 chains rows: its second source, index - 2, is the
   * previous row's right-hand button, so it reads that row's last INPUT or GATE signal of this call.
   */
  lemma GateChainsRows(g: seq<Cell>, y: int)
    requires |g| == ButtonCount && 1 < y < 9
    requires var c := g[Index(1, y)];
      c.kind == Gate && c.gateType != Not && c.gateA as int == Index(0, y) && c.gateB as int == Index(9, y - 1)
    ensures var p := Propagate(g);
      p[Index(1, y)].output == GateValue(g[Index(1, y)].gateType, p[Index(0, y)].output, LastOf(p, y - 1, 8))
  {
    GateSettles(g, 1, y);
    RowOutput(g, y - 1);
  }

  /** An INPUT whose source the scan has passed copies the source's new signal. */
  lemma InputSettles(g: seq<Cell>, x: int, y: int, a: int, b: int)
    requires |g| == ButtonCount && InGrid(x, y) && Pad(a, b) && !Pending(a, b, x, y)
    requires var c := g[Index(x, y)]; c.kind == Input && c.inputIndex as int == Index(a, b)
    ensures var p := Propagate(g); p[Index(x, y)].output == p[Index(a, b)].output
  {
    VisitIsFinal(g, x, y);
    ScanIsFinal(g, x, y, a, b);
  }

  /** An INPUT whose source the scan has yet to write copies the source's signal from before the call. */
  lemma InputReadsStale(g: seq<Cell>, x: int, y: int, a: int, b: int)
    requires |g| == ButtonCount && InGrid(x, y) && Pad(a, b) && Pending(a, b, x, y)
    requires var c := g[Index(x, y)]; c.kind == Input && c.inputIndex as int == Index(a, b)
    ensures Propagate(g)[Index(x, y)].output == g[Index(a, b)].output
  {
    VisitIsFinal(g, x, y);
    ScanUnvisited(g, x, y, a, b);
  }

  /** The side buttons other than the right-hand column are never written by the propagation: the clock keeps its signal. */
  lemma PropagateKeepsSides(g: seq<Cell>, a: int, b: int)
    requires |g| == ButtonCount && Pad(a, b) && (a == 0 || b == 0 || b == 9)
    ensures Propagate(g)[Index(a, b)] == g[Index(a, b)]
  {
    ScanUnvisited(g, 1, 9, a, b);
  }

  /** A pass only ever writes signals, and on a grid of 0s and 1s it writes 0s and 1s. */
  lemma {:induction false} ScanKeeps(g: seq<Cell>, x: int, y: int)
    requires |g| == ButtonCount && At(x, y)
    ensures SameWiring(g, Scan(g, x, y))
    ensures Bits(g) ==> Bits(Scan(g, x, y))
    decreases y, x
  {
    if x == 10 {
      ScanKeeps(g, 9, y);
    } else if x > 1 {
      ScanKeeps(g, x - 1, y);
    } else if y > 1 {
      ScanKeeps(g, 10, y - 1);
    }
  }

  /** The propagation keeps every pad's wiring, and keeps every signal 0 or 1. */
  lemma PropagateKeeps(g: seq<Cell>)
    requires |g| == ButtonCount
    ensures SameWiring(g, Propagate(g))
    ensures Bits(g) ==> Bits(Propagate(g))
  {
    ScanKeeps(g, 1, 9);
  }

  // ---------------------------------------------------------------------------
  // The application state

  /**
   * Interior pad k is wired as presses leave it: an INPUT reads a side button, a GATE the pads at
   * k - 1 and, unless it is a NOT, k - 2; in column 1 the latter is the previous row's output button.
   */
  predicate Wired(k: int, c: Cell)
  {
    && (c.kind == Empty ==> c.inputIndex == 0)
    && (c.kind == Input ==> IsInputButton(c.inputIndex) && !IsGateButton(c.inputIndex))
    && (c.kind == Gate ==> IsGateButton(c.inputIndex) && c.gateType == GateFor(c.inputIndex))
    && (c.kind == Gate ==> c.gateA as int == k - 1 && (c.gateType == Not || c.gateB as int == k - 2))
    && (c.gateA == 0 || c.gateA as int == k - 1)
    && (c.gateB == 0 || c.gateB as int == k - 2)
  }

  /** Every interior pad of the grid is wired as presses leave it. */
  predicate Configured(g: seq<Cell>)
    requires |g| == ButtonCount
  {
    forall x, y :: 0 < x < 9 && 0 < y < 9 ==> Wired(Index(x, y), g[Index(x, y)])
  }

  /** Wiring does not depend on signals. */
  lemma ConfiguredWiring(g: seq<Cell>, h: seq<Cell>)
    requires |g| == ButtonCount && SameWiring(g, h) && Configured(g)
    ensures Configured(h)
  {
    forall x, y | InGrid(x, y)
      ensures Wired(Index(x, y), h[Index(x, y)])
    {
      var k := Index(x, y);
      assert g[k].(output := 0) == h[k].(output := 0);
    }
  }

  /** A press configures an interior pad only as presses leave it. */
  lemma PressWired(c: Cell, x: int, y: int, held: U8)
    requires InGrid(x, y) && Wired(Index(x, y), c) && IsInputButton(held)
    ensures Wired(Index(x, y), Press(c, Index(x, y), held))
  {
  }

  /** `!display_state[10].output`: the timer flips the clock's signal. */
  function Flip(g: seq<Cell>): (r: seq<Cell>)
    requires |g| == ButtonCount
    ensures |r| == ButtonCount
  {
    g[ClockIndex := g[ClockIndex].(output := Truth(g[ClockIndex].output == 0))]
  }

  /** The application's globals: `display_state`, `held_button_index` and the timer's `ms`. */
  class Simulator {
    const cells: array<Cell>
    var held: U8
    var ms: nat

    /** 100 pads, wired as presses leave them, all signals 0 or 1; only a side button is ever held. */
    predicate Valid()
      reads this, cells
    {
      cells.Length == ButtonCount && (held == 0 || IsInputButton(held)) && ms <= TickMs
      && Configured(cells[..]) && Bits(cells[..])
    }

    /** The zero-initialised globals; `app_init` only lights the gate buttons. */
    constructor()
      ensures Valid() && fresh(cells)
      ensures cells[..] == seq(ButtonCount, _ => Blank) && held == 0 && ms == TickMs
    {
      cells := new Cell[ButtonCount](_ => Blank);
      held := 0;
      ms := TickMs;
    }

    /** `app_surface_event`. */
    method SurfaceEvent(kind: U8, index: U8, value: U8)
      requires Valid() && index < ButtonCount
      modifies this`held, cells
      ensures Valid()
      ensures kind != TypePad ==> held == old(held) && cells[..] == old(cells[..])
      ensures kind == TypePad && IsInputButton(index) ==>
        && held == (if value != 0 then index else 0)
        && cells[..] == if IsUserInputButton(index)
          then old(cells[..])[index := old(cells[index]).(output := Truth(value != 0))]
          else old(cells[..])
      ensures kind == TypePad && !IsInputButton(index) ==>
        && held == old(held)
        && cells[..] == if old(held) != 0 && value != 0
          then old(cells[..])[index := Press(old(cells[index]), index, old(held))]
          else old(cells[..])
    {
      if kind == TypePad {
        if IsInputButton(index) {
          if value != 0 {
            held := index;
          } else {
            held := 0;
          }
          if IsUserInputButton(index) {
            cells[index] := cells[index].(output := if value != 0 then 1 else 0);
          }
          return;
        }
        if held != 0 && value != 0 {
          ghost var g := cells[..];
          if cells[index].inputIndex == held {
            cells[index] := cells[index].(inputIndex := 0, kind := Empty);
          } else {
            cells[index] := Configure(cells[index], index, held);
          }
          forall x, y | InGrid(x, y)
            ensures Wired(Index(x, y), cells[Index(x, y)])
          {
            if Index(x, y) == index as int {
              PressWired(g[index], x, y, held);
            }
          }
        }
      }
    }

    /** `app_timer_event`: on the first call and every TICK_MS-th call the clock flips; every call propagates. */
    method TimerEvent() returns (fired: bool)
      requires Valid()
      modifies this`ms, cells
      ensures Valid()
      ensures (ms, fired) == Tick(old(ms))
      ensures cells[..] == Propagate(if fired then Flip(old(cells[..])) else old(cells[..]))
    {
      ms := ms + 1;
      fired := ms >= TickMs;
      if fired {
        ms := 0;
        cells[ClockIndex] := cells[ClockIndex].(output := Truth(cells[ClockIndex].output == 0));
      }
      PropagateGrid();
    }

    /** The nested loops of `app_timer_event`: rows 1..8, each its pads in place and then its right-hand button. */
    method PropagateGrid()
      requires Valid()
      modifies cells
      ensures Valid()
      ensures cells[..] == Propagate(old(cells[..]))
    {
      ghost var g := cells[..];
      var y := 1;
      while y < 9
        invariant 1 <= y <= 9
        invariant cells[..] == Scan(g, 1, y)
      {
        ScanKeeps(g, 1, y);
        ConfiguredWiring(g, cells[..]);
        PropagateRow(y, g);
        y := y + 1;
      }
      PropagateKeeps(g);
      ConfiguredWiring(g, cells[..]);
    }

    /** One pass of the outer loop: the pads of row y left to right, then the row's right-hand button. */
    method PropagateRow(y: int, ghost g: seq<Cell>)
      requires Valid() && 0 < y < 9
      requires |g| == ButtonCount && Configured(g) && Bits(g) && cells[..] == Scan(g, 1, y)
      modifies cells
      ensures cells[..] == Scan(g, 1, y + 1)
    {
      var last: U8 := 0;
      var x := 1;
      while x < 9
        invariant 1 <= x <= 9
        invariant cells[..] == Scan(g, x, y)
        invariant last == LastOf(cells[..], y, x - 1)
      {
        ScanKeeps(g, x, y);
        ConfiguredWiring(g, cells[..]);
        VisitPad(x, y);
        LastOfVisit(Scan(g, x, y), x, y);
        if cells[x + y * 10].kind != Empty {
          last := cells[x + y * 10].output;
        }
        x := x + 1;
      }
      cells[y * 10 + 9] := cells[y * 10 + 9].(output := last);
    }

    /** The body of the inner loop at column x of row y. */
    method VisitPad(x: int, y: int)
      requires Valid() && InGrid(x, y)
      modifies cells
      ensures cells[..] == Visit(old(cells[..]), Index(x, y))
    {
      var index := x + y * 10;
      var c := cells[index];
      assert Wired(Index(x, y), cells[..][Index(x, y)]);
      if c.kind == Input {
        cells[index] := c.(output := cells[c.inputIndex].output);
      } else if c.kind == Gate {
        var a := cells[c.gateA].output;
        var b := cells[c.gateB].output;
        cells[index] := c.(output := GateValue(c.gateType, a, b));
      } else {
        cells[index] := c.(output := 0);
      }
    }
  }

  /** Visiting column x leaves `last_row_value` over the columns before it unchanged. */
  lemma LastOfVisit(g: seq<Cell>, x: int, y: int)
    requires |g| == ButtonCount && InGrid(x, y)
    ensures LastOf(Visit(g, Index(x, y)), y, x - 1) == LastOf(g, y, x - 1)
  {
    LastOfFrame(Visit(g, Index(x, y)), g, y, x - 1);
  }
}
