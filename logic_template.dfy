/**
 * The first version of the logic-gate simulator: only the clock button can be
 * held, and while it is held every pad event wires the pad as an INPUT of the
 * held button. The timer flips the clock and re-evaluates the 8 x 8 pads in
 * place, row by row, only on the first call and every TICK_MS-th call after.
 * Unlike the later version an EMPTY pad keeps its signal.
 */
module LogicTemplate {
  import opened Pads

  /** The clock button, the only one that can be held. */
  const ClockIndex: U8 := 10

  datatype CellType = Empty | Input | Gate
  /** This version's four gates. */
  datatype GateType = And | Or | Xor | Not

  /** `struct cell`. */
  datatype Cell = Cell(kind: CellType, inputIndex: U8, gateType: GateType, gateA: U8, gateB: U8, output: U8)

  /** A zero-initialised `struct cell`. */
  const Blank := Cell(Empty, 0, And, 0, 0, 0)

  /** `is_input_button`: only the clock. */
  function IsInputButton(index: U8): (r: bool)
    ensures r <==> index as int == ClockIndex as int
  {
    index == 10
  }

  // ---------------------------------------------------------------------------
  // Evaluating a pad

  /** The gates over truth values. */
  predicate Holds(t: GateType, p: bool, q: bool)
  {
    match t
    case And => p && q
    case Or => p || q
    case Xor => p != q
    case Not => !p
  }

  /** The gate `switch` of `app_timer_event`: on signals 0 and 1 it computes the gate and yields 0 or 1. */
  function GateValue(t: GateType, a: U8, b: U8): (r: U8)
    ensures a <= 1 && b <= 1 ==> r <= 1 && (r == 1 <==> Holds(t, a == 1, b == 1))
    ensures t == Not ==> r == Truth(a == 0)
  {
    match t
    case And => Truth(a != 0 && b != 0)
    case Or => Truth(a != 0 || b != 0)
    case Xor => BitXor(a, b)
    case Not => Truth(a == 0)
  }

  /** Every signal is 0 or 1. */
  predicate Bits(g: seq<Cell>)
  {
    forall k :: 0 <= k < |g| ==> g[k].output <= 1
  }

  /** The signal of pad i; a pad outside the array reads as 0. */
  function Signal(g: seq<Cell>, i: int): (r: U8)
    ensures Bits(g) ==> r <= 1
  {
    if 0 <= i < |g| then g[i].output else 0
  }

  /** The new signal of a pad: an INPUT copies its source, a GATE computes, an EMPTY pad keeps its signal. */
  function Evaluate(g: seq<Cell>, c: Cell): (r: U8)
    ensures Bits(g) && c.output <= 1 ==> r <= 1
    ensures c.kind == Empty ==> r == c.output
  {
    match c.kind
    case Input => Signal(g, c.inputIndex)
    case Gate => GateValue(c.gateType, Signal(g, c.gateA), Signal(g, c.gateB))
    case Empty => c.output
  }

  /** Two grids that differ at most in their signals. */
  predicate SameWiring(g: seq<Cell>, h: seq<Cell>)
  {
    |g| == |h| && forall k :: 0 <= k < |g| ==> g[k].(output := 0) == h[k].(output := 0)
  }

  // ---------------------------------------------------------------------------
  // One tick's propagation, as a function of the grid before it

  /** The body of the inner loop at pad k. */
  function Visit(g: seq<Cell>, k: int): (r: seq<Cell>)
    requires 0 <= k < |g|
  {
    g[k := g[k].(output := Evaluate(g, g[k]))]
  }

  /** `last_row_value` after columns 1..n of row y: the signal of the last INPUT or GATE among them, or 0. */
  function LastOf(g: seq<Cell>, y: int, n: int): (r: U8)
    requires |g| == ButtonCount && 0 < y < 9 && 0 <= n < 9
    ensures Bits(g) ==> r <= 1
  {
    if n == 0 then 0
    else if g[Index(n, y)].kind != Empty then g[Index(n, y)].output
    else LastOf(g, y, n - 1)
  }

  /** The end of a row's pass: its right-hand button takes `last_row_value`. */
  function Finish(g: seq<Cell>, y: int): (r: seq<Cell>)
    requires |g| == ButtonCount && 0 < y < 9
  {
    g[Index(9, y) := g[Index(9, y)].(output := LastOf(g, y, 8))]
  }

  /** The grid as the scan stands before step x of row y. */
  function Scan(g: seq<Cell>, x: int, y: int): (r: seq<Cell>)
    requires |g| == ButtonCount && At(x, y)
    ensures |r| == ButtonCount
    decreases y, x
  {
    if x == 10 then Finish(Scan(g, 9, y), y)
    else if x > 1 then Visit(Scan(g, x - 1, y), Index(x - 1, y))
    else if y > 1 then Scan(g, 10, y - 1)
    else g
  }

  /** The propagation of one timer call: rows 1..8, each its pads left to right and then its right-hand button. */
  function Propagate(g: seq<Cell>): (r: seq<Cell>)
    requires |g| == ButtonCount
    ensures |r| == ButtonCount
  {
    Scan(g, 1, 9)
  }

  // ---------------------------------------------------------------------------
  // What a scan leaves behind

  /** Visiting column x - 1 changes only that pad. */
  lemma VisitStep(g: seq<Cell>, x: int, y: int, a: int, b: int)
    requires |g| == ButtonCount && 1 < x < 10 && 0 < y < 9 && Pad(a, b) && !(a == x - 1 && b == y)
    ensures Scan(g, x, y)[Index(a, b)] == Scan(g, x - 1, y)[Index(a, b)]
  {
  }

  /** Finishing row y changes only its right-hand button. */
  lemma FinishStep(g: seq<Cell>, y: int, a: int, b: int)
    requires |g| == ButtonCount && 0 < y < 9 && Pad(a, b) && !(a == 9 && b == y)
    ensures Scan(g, 10, y)[Index(a, b)] == Scan(g, 9, y)[Index(a, b)]
  {
  }

  /** A pad the scan has not yet written holds its value from before the call. */
  lemma {:induction false} ScanUnvisited(g: seq<Cell>, x: int, y: int, a: int, b: int)
    requires |g| == ButtonCount && At(x, y) && Pad(a, b)
    requires !(0 < a && 0 < b < 9 && Pos(a, b) < Pos(x, y))
    ensures Scan(g, x, y)[Index(a, b)] == g[Index(a, b)]
    decreases y, x
  {
    if x == 10 {
      ScanUnvisited(g, 9, y, a, b);
      FinishStep(g, y, a, b);
    } else if x > 1 {
      ScanUnvisited(g, x - 1, y, a, b);
      VisitStep(g, x, y, a, b);
    } else if y > 1 {
      ScanUnvisited(g, 10, y - 1, a, b);
    }
  }

  /** One step of the scan changes only the pad it visits, or the row's right-hand button. */
  lemma ScanAdvance(g: seq<Cell>, x: int, y: int, a: int, b: int)
    requires |g| == ButtonCount && 1 <= x < 10 && 0 < y < 9 && Pad(a, b) && !(a == x && b == y)
    ensures Scan(g, x + 1, y)[Index(a, b)] == Scan(g, x, y)[Index(a, b)]
  {
    if x == 9 {
      FinishStep(g, y, a, b);
    } else {
      VisitStep(g, x + 1, y, a, b);
    }
  }

  /** A pad the scan has passed, or never writes, already holds its final value. */
  lemma {:induction false} ScanIsFinal(g: seq<Cell>, x: int, y: int, a: int, b: int)
    requires |g| == ButtonCount && At(x, y) && Pad(a, b) && !Pending(a, b, x, y)
    ensures Propagate(g)[Index(a, b)] == Scan(g, x, y)[Index(a, b)]
    decreases 9 - y, 10 - x
  {
    if y < 9 {
      if x < 10 {
        assert !Pending(a, b, x + 1, y);
        ScanIsFinal(g, x + 1, y, a, b);
        ScanAdvance(g, x, y, a, b);
      } else {
        assert Scan(g, 1, y + 1) == Scan(g, 10, y);
        ScanIsFinal(g, 1, y + 1, a, b);
      }
    }
  }

  /** Each interior pad is final once visited: its signal is evaluated on the grid as the scan reaches it. */
  lemma VisitIsFinal(g: seq<Cell>, x: int, y: int)
    requires |g| == ButtonCount && InGrid(x, y)
    ensures var s := Scan(g, x, y);
      Propagate(g)[Index(x, y)] == g[Index(x, y)].(output := Evaluate(s, g[Index(x, y)]))
  {
    ScanIsFinal(g, x + 1, y, x, y);
    ScanUnvisited(g, x, y, x, y);
  }

  /** `last_row_value` reads only columns 1..n of its row. */
  lemma {:induction false} LastOfFrame(g: seq<Cell>, h: seq<Cell>, y: int, n: int)
    requires |g| == ButtonCount && |h| == ButtonCount && 0 < y < 9 && 0 <= n < 9
    requires forall a :: 0 < a <= n ==> g[Index(a, y)] == h[Index(a, y)]
    ensures LastOf(g, y, n) == LastOf(h, y, n)
  {
    if n > 0 {
      LastOfFrame(g, h, y, n - 1);
    }
  }

  /** Each row's right-hand button ends up with the signal of the row's last INPUT or GATE, or 0. */
  lemma RowOutput(g: seq<Cell>, y: int)
    requires |g| == ButtonCount && 0 < y < 9
    ensures Propagate(g)[Index(9, y)].output == LastOf(Propagate(g), y, 8)
  {
    var s := Scan(g, 9, y);
    ScanIsFinal(g, 10, y, 9, y);
    forall a | 0 < a <= 8
      ensures Propagate(g)[Index(a, y)] == s[Index(a, y)]
    {
      ScanIsFinal(g, 9, y, a, y);
    }
    LastOfFrame(Propagate(g), s, y, 8);
  }

  /** A pass only ever writes signals, and on a grid of 0s and 1s it writes 0s and 1s. */
  lemma {:induction false} ScanKeeps(g: seq<Cell>, x: int, y: int)
    requires |g| == ButtonCount && At(x, y)
    ensures SameWiring(g, Scan(g, x, y))
    ensures Bits(g) ==> Bits(Scan(g, x, y))
    decreases y, x
  {
    if x == 10 {
      ScanKeeps(g, 9, y);
    } else if x > 1 {
      ScanKeeps(g, x - 1, y);
    } else if y > 1 {
      ScanKeeps(g, 10, y - 1);
    }
  }

  /** The propagation keeps every pad's wiring, and keeps every signal 0 or 1. */
  lemma PropagateKeeps(g: seq<Cell>)
    requires |g| == ButtonCount
    ensures SameWiring(g, Propagate(g))
    ensures Bits(g) ==> Bits(Propagate(g))
  {
    ScanKeeps(g, 1, 9);
  }

  /** Visiting column x leaves `last_row_value` over the columns before it unchanged. */
  lemma LastOfVisit(g: seq<Cell>, x: int, y: int)
    requires |g| == ButtonCount && InGrid(x, y)
    ensures LastOf(Visit(g, Index(x, y)), y, x - 1) == LastOf(g, y, x - 1)
  {
    LastOfFrame(Visit(g, Index(x, y)), g, y, x - 1);
  }

  // ---------------------------------------------------------------------------
  // What the events can build: INPUTs of the clock and nothing else

  /** No pad is a GATE, and every INPUT reads the clock. */
  predicate FromClock(g: seq<Cell>)
  {
    forall k :: 0 <= k < |g| ==> g[k].kind != Gate && (g[k].kind == Input ==> g[k].inputIndex == ClockIndex)
  }

  /** Row y holds an INPUT. */
  predicate RowHasInput(g: seq<Cell>, y: int, n: int)
    requires |g| == ButtonCount && 0 < y < 9
  {
    exists a :: 0 < a <= n && a < 9 && g[Index(a, y)].kind == Input
  }

  /** On a grid the events can build, each INPUT takes the clock's signal and each EMPTY pad keeps its own. */
  lemma PadFollowsClock(g: seq<Cell>, x: int, y: int)
    requires |g| == ButtonCount && FromClock(g) && InGrid(x, y)
    ensures var c := g[Index(x, y)];
      Propagate(g)[Index(x, y)].output == if c.kind == Input then g[ClockIndex].output else c.output
  {
    VisitIsFinal(g, x, y);
    ScanUnvisited(g, x, y, 0, 1);
  }

  /** `last_row_value` over the first n columns is the clock's signal if one of them is an INPUT, else 0. */
  lemma {:induction false} LastOfClock(g: seq<Cell>, y: int, n: int)
    requires |g| == ButtonCount && FromClock(g) && 0 < y < 9 && 0 <= n < 9
    ensures LastOf(Propagate(g), y, n) == if RowHasInput(g, y, n) then g[ClockIndex].output else 0
  {
    if n > 0 {
      LastOfClock(g, y, n - 1);
      PadFollowsClock(g, n, y);
      PropagateKeeps(g);
      var k := Index(n, y);
      assert g[k].(output := 0) == Propagate(g)[k].(output := 0);
      if g[k].kind != Input {
        assert RowHasInput(g, y, n) <==> RowHasInput(g, y, n - 1);
      }
    }
  }

  /** Each row's right-hand button takes the clock's signal if the row holds an INPUT, else 0. */
  lemma RowFollowsClock(g: seq<Cell>, y: int)
    requires |g| == ButtonCount && FromClock(g) && 0 < y < 9
    ensures Propagate(g)[Index(9, y)].output == if RowHasInput(g, y, 8) then g[ClockIndex].output else 0
  {
    RowOutput(g, y);
    LastOfClock(g, y, 8);
  }

  /** Whether a grid is one the events can build depends only on its wiring. */
  lemma WiringKeepsClock(g: seq<Cell>, h: seq<Cell>)
    requires SameWiring(g, h)
    ensures FromClock(g) ==> FromClock(h)
  {
    forall k | 0 <= k < |h|
      ensures FromClock(g) ==> h[k].kind != Gate && (h[k].kind == Input ==> h[k].inputIndex == ClockIndex)
    {
      assert g[k].(output := 0) == h[k].(output := 0);
    }
  }

  /** The timer's flip of the clock. */
  function Flip(g: seq<Cell>): (r: seq<Cell>)
    requires |g| == ButtonCount
    ensures |r| == ButtonCount
  {
    g[ClockIndex := g[ClockIndex].(output := Truth(g[ClockIndex].output == 0))]
  }

  /** Every stored source index is 0 or the clock, so every read is in the array. */
  predicate Ranged(g: seq<Cell>)
  {
    forall k :: 0 <= k < |g| ==> (g[k].inputIndex == 0 || g[k].inputIndex == ClockIndex) && g[k].gateA == 0 && g[k].gateB == 0
  }

  /** The template's globals: `display_state`, `held_button_index` and the timer's `ms`. */
  class Template {
    const cells: array<Cell>
    var held: U8
    var ms: nat

    /** 100 pads reading only pads of the array, all signals 0 or 1; only the clock is ever held. */
    predicate Valid()
      reads this, cells
    {
      cells.Length == ButtonCount && (held == 0 || held == ClockIndex) && ms <= TickMs
      && Ranged(cells[..]) && Bits(cells[..])
    }

    /** The zero-initialised globals; `app_init` only lights the gate buttons. */
    constructor()
      ensures Valid() && fresh(cells) && FromClock(cells[..])
      ensures cells[..] == seq(ButtonCount, _ => Blank) && held == 0 && ms == TickMs
    {
      cells := new Cell[ButtonCount](_ => Blank);
      held := 0;
      ms := TickMs;
    }

    /** `app_surface_event`: the clock's press and release set `held`; while it is held any event wires its pad. */
    method SurfaceEvent(kind: U8, index: U8, value: U8)
      requires Valid() && index < ButtonCount
      modifies this`held, cells
      ensures Valid()
      ensures FromClock(old(cells[..])) ==> FromClock(cells[..])
      ensures kind != TypePad ==> held == old(held) && cells[..] == old(cells[..])
      ensures kind == TypePad ==>
        && held == (if index == ClockIndex then (if value != 0 then ClockIndex else 0) else old(held))
        && cells[..] == if held != 0
          then old(cells[..])[index := old(cells[index]).(inputIndex := held, kind := Input)]
          else old(cells[..])
    {
      if kind == TypePad {
        if IsInputButton(index) {
          if value != 0 {
            held := index;
          } else {
            held := 0;
          }
        }
        if held != 0 {
          cells[index] := cells[index].(inputIndex := held, kind := Input);
        }
      }
    }

    /** `app_timer_event`: on the first call and every TICK_MS-th call the clock flips and the pads propagate. */
    method TimerEvent() returns (fired: bool)
      requires Valid()
      modifies this`ms, cells
      ensures Valid()
      ensures FromClock(old(cells[..])) ==> FromClock(cells[..])
      ensures (ms, fired) == Tick(old(ms))
      ensures cells[..] == if fired then Propagate(Flip(old(cells[..]))) else old(cells[..])
    {
      ms := ms + 1;
      fired := ms >= TickMs;
      if fired {
        ms := 0;
        ghost var g0 := cells[..];
        cells[ClockIndex] := cells[ClockIndex].(output := Truth(cells[ClockIndex].output == 0));
        ghost var g := cells[..];
        assert g == Flip(g0);
        PropagateGrid();
        PropagateKeeps(g);
        assert forall k :: 0 <= k < ButtonCount ==> g[k].(output := 0) == cells[..][k].(output := 0);
        WiringKeepsClock(g0, g);
        WiringKeepsClock(g, cells[..]);
      }
    }

    /** The nested loops of `app_timer_event`: rows 1..8, each its pads in place and then its right-hand button. */
    method PropagateGrid()
      requires Valid()
      modifies cells
      ensures Valid()
      ensures cells[..] == Propagate(old(cells[..]))
    {
      ghost var g := cells[..];
      var y := 1;
      while y < 9
        invariant 1 <= y <= 9
        invariant cells[..] == Scan(g, 1, y)
      {
        RangedScan(g, 1, y);
        PropagateRow(y, g);
        y := y + 1;
      }
      RangedScan(g, 1, 9);
    }

    /** One pass of the outer loop: the pads of row y left to right, then the row's right-hand button. */
    method PropagateRow(y: int, ghost g: seq<Cell>)
      requires Valid() && 0 < y < 9
      requires |g| == ButtonCount && Ranged(g) && Bits(g) && cells[..] == Scan(g, 1, y)
      modifies cells
      ensures cells[..] == Scan(g, 1, y + 1)
    {
      var last: U8 := 0;
      var x := 1;
      while x < 9
        invariant 1 <= x <= 9
        invariant cells[..] == Scan(g, x, y)
        invariant last == LastOf(cells[..], y, x - 1)
      {
        RangedScan(g, x, y);
        VisitPad(x, y);
        LastOfVisit(Scan(g, x, y), x, y);
        if cells[x + y * 10].kind != Empty {
          last := cells[x + y * 10].output;
        }
        x := x + 1;
      }
      cells[y * 10 + 9] := cells[y * 10 + 9].(output := last);
    }

    /** The body of the inner loop at column x of row y: an EMPTY pad is left alone. */
    method VisitPad(x: int, y: int)
      requires Valid() && InGrid(x, y)
      modifies cells
      ensures cells[..] == Visit(old(cells[..]), Index(x, y))
    {
      var index := x + y * 10;
      var c := cells[index];
      if c.kind == Input {
        cells[index] := c.(output := cells[c.inputIndex].output);
      } else if c.kind == Gate {
        var a := cells[c.gateA].output;
        var b := cells[c.gateB].output;
        cells[index] := c.(output := GateValue(c.gateType, a, b));
      }
    }
  }

  /** The scan keeps the stored source indices, and keeps every signal 0 or 1. */
  lemma RangedScan(g: seq<Cell>, x: int, y: int)
    requires |g| == ButtonCount && At(x, y) && Ranged(g)
    ensures Ranged(Scan(g, x, y))
    ensures Bits(g) ==> Bits(Scan(g, x, y))
  {
    ScanKeeps(g, x, y);
    var s := Scan(g, x, y);
    forall k | 0 <= k < ButtonCount
      ensures (s[k].inputIndex == 0 || s[k].inputIndex == ClockIndex) && s[k].gateA == 0 && s[k].gateB == 0
    {
      assert g[k].(output := 0) == s[k].(output := 0);
    }
  }
}
