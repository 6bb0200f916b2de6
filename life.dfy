/**
 * Conway's Life, rule B3/S23, on the 8 x 8 pads of a Launchpad Pro. The grid
 * is the 100-entry pad array; only the interior is simulated, every other
 * entry counts as dead. A generation is computed into a second array from
 * the unchanged grid and then copied over it.
 */
module Life {
  import opened Pads

  /** A cell at integer coordinates: live iff it is an interior pad holding a non-zero value. */
  predicate Alive(g: seq<U8>, x: int, y: int)
    requires |g| == ButtonCount
  {
    InGrid(x, y) && g[Index(x, y)] != 0
  }

  /** `is_cell_alive`. */
  predicate IsCellAlive(g: seq<U8>, x: U8, y: U8)
    requires |g| == ButtonCount
  {
    x > 0 && x < 9 && y > 0 && y < 9 && g[x + y * 10] != 0
  }

  /** The call `is_cell_alive(x + dx, y + dy)` with u8 arguments. */
  predicate Look(g: seq<U8>, x: U8, y: U8, dx: int, dy: int)
    requires |g| == ButtonCount
  {
    IsCellAlive(g, Wrap(x + dx), Wrap(y + dy))
  }

  /** One step either side, the u8 wrap lands outside the grid exactly when the integer coordinate does. */
  lemma LookWraps(g: seq<U8>, x: U8, y: U8, dx: int, dy: int)
    requires |g| == ButtonCount && -1 <= dx <= 1 && -1 <= dy <= 1
    ensures Look(g, x, y, dx, dy) == Alive(g, x + dx, y + dy)
  {
  }

  /** The eight (dx, dy) steps of `count_cell_neighbors`, in the order of its calls. */
  const Around: seq<(int, int)> := [(-1, -1), (0, -1), (1, -1), (-1, 0), (1, 0), (-1, 1), (0, 1), (1, 1)]

  /** The steps are exactly the eight cells surrounding a cell, each once. */
  lemma AroundIsNeighbourhood()
    ensures |Around| == 8
    ensures forall s :: s in Around <==> s != (0, 0) && -1 <= s.0 <= 1 && -1 <= s.1 <= 1
    ensures forall i, j :: 0 <= i < j < |Around| ==> Around[i] != Around[j]
  {
  }

  /** The calls `is_cell_alive(x + dx, y + dy)` that find a live cell, one step after another. */
  function CountCalls(g: seq<U8>, x: U8, y: U8, steps: seq<(int, int)>): (n: nat)
    requires |g| == ButtonCount
    ensures n <= |steps|
  {
    if steps == [] then 0
    else Truth(Look(g, x, y, steps[0].0, steps[0].1)) + CountCalls(g, x, y, steps[1..])
  }

  /** `count_cell_neighbors`: one is added for each call that finds a live cell. */
  function CountNeighbors(g: seq<U8>, x: U8, y: U8): (n: U8)
    requires |g| == ButtonCount
    ensures n <= 8
  {
    CountCalls(g, x, y, Around)
  }

  /** The live cells one step away from (x, y), on integer coordinates. */
  function LiveAround(g: seq<U8>, x: int, y: int, steps: seq<(int, int)>): (n: nat)
    requires |g| == ButtonCount
    ensures n <= |steps|
  {
    if steps == [] then 0
    else Truth(Alive(g, x + steps[0].0, y + steps[0].1)) + LiveAround(g, x, y, steps[1..])
  }

  /** The number of live neighbours of (x, y). */
  function Neighbours(g: seq<U8>, x: int, y: int): (n: nat)
    requires |g| == ButtonCount
    ensures n <= 8
  {
    LiveAround(g, x, y, Around)
  }

  /** With steps of at most one, the wrapping calls count the same cells as integer coordinates. */
  lemma {:induction false} CountCallsLive(g: seq<U8>, x: U8, y: U8, steps: seq<(int, int)>)
    requires |g| == ButtonCount
    requires forall s :: s in steps ==> -1 <= s.0 <= 1 && -1 <= s.1 <= 1
    ensures CountCalls(g, x, y, steps) == LiveAround(g, x, y, steps)
  {
    if steps != [] {
      LookWraps(g, x, y, steps[0].0, steps[0].1);
      assert forall s :: s in steps[1..] ==> s in steps;
      CountCallsLive(g, x, y, steps[1..]);
    }
  }

  /** `count_cell_neighbors` counts the live neighbours: the u8 wrap never reaches a far cell. */
  lemma CountNeighborsLive(g: seq<U8>, x: U8, y: U8)
    requires |g| == ButtonCount
    ensures CountNeighbors(g, x, y) == Neighbours(g, x, y)
  {
    AroundIsNeighbourhood();
    CountCallsLive(g, x, y, Around);
  }

  /** `does_cell_live`: rule B3/S23, as a 0 or a 1. */
  function DoesCellLive(g: seq<U8>, x: U8, y: U8): (r: U8)
    requires |g| == ButtonCount
    ensures r <= 1
    ensures var n := CountNeighbors(g, x, y);
      r == 1 <==> n == 3 || (IsCellAlive(g, x, y) && n == 2)
  {
    var alive := IsCellAlive(g, x, y);
    var neighbors := CountNeighbors(g, x, y);
    if alive then
      if neighbors < 2 then 0
      else if neighbors > 3 then 0
      else Truth(alive)
    else if neighbors == 3 then 1
    else Truth(alive)
  }

  /** The next generation: rule B3/S23 on every interior pad and 0 everywhere else. */
  function Next(g: seq<U8>): (r: seq<U8>)
    requires |g| == ButtonCount
    ensures |r| == ButtonCount
  {
    seq(ButtonCount, k requires 0 <= k < ButtonCount =>
      if Interior(k) then DoesCellLive(g, k % 10, k / 10) else 0)
  }

  /** Life in its textbook form: a cell of the next generation is live iff it has three live neighbours, or two and is live itself. */
  lemma NextIsLife(g: seq<U8>, x: int, y: int)
    requires |g| == ButtonCount && InGrid(x, y)
    ensures var n := Neighbours(g, x, y);
      Next(g)[Index(x, y)] == Truth(n == 3 || (Alive(g, x, y) && n == 2))
  {
    IndexCoordinates(x, y);
    LookWraps(g, x, y, 0, 0);
    CountNeighborsLive(g, x, y);
  }

  /** A generation leaves every side button at 0. */
  lemma NextBorder(g: seq<U8>, k: int)
    requires |g| == ButtonCount && 0 <= k < ButtonCount && !Interior(k)
    ensures Next(g)[k] == 0
  {
  }

  /** `MAXLED * !v`: a press toggles the pad between dead and MAXLED. */
  function Toggle(v: U8): (r: U8)
    ensures r == 0 || r == MaxLed
    ensures r != 0 <==> v == 0
  {
    MaxLed * Truth(v == 0)
  }

  /** The grid `app_init` lights: pads 11, 12 and 22. */
  function InitialGrid(): (g: seq<U8>)
    ensures |g| == ButtonCount
  {
    seq(ButtonCount, k => if k == 11 || k == 12 || k == 22 then 1 else 0)
  }

  /** The application's globals: `display_state`, `temp_state`, `beat` and the timer's `ms`. */
  class Life {
    const display: array<U8>
    const temp: array<U8>
    var beat: U8
    var ms: nat

    /** Two distinct 100-entry arrays; `temp_state` is only ever written at interior pads. */
    predicate Valid()
      reads this, temp
    {
      display.Length == ButtonCount && temp.Length == ButtonCount && display != temp
      && ms <= TickMs
      && forall k :: 0 <= k < ButtonCount && !Interior(k) ==> temp[k] == 0
    }

    /** The zero-initialised globals, then `app_init`. */
    constructor()
      ensures Valid() && fresh(display) && fresh(temp)
      ensures display[..] == InitialGrid() && temp[..] == seq(ButtonCount, _ => 0)
      ensures beat == 0 && ms == TickMs
    {
      display := new U8[ButtonCount](k => if k == 11 || k == 12 || k == 22 then 1 else 0);
      temp := new U8[ButtonCount](_ => 0);
      beat := 0;
      ms := TickMs;
    }

    /** The body of the tick in `app_timer_event`: compute into `temp_state`, copy it back and flip `beat`. */
    method Generation()
      requires Valid()
      modifies this`beat, display, temp
      ensures Valid()
      ensures display[..] == Next(old(display[..])) && temp[..] == display[..]
      ensures beat == Truth(old(beat) == 0)
    {
      ghost var g := display[..];
      var i := 1;
      while i < 9
        invariant 1 <= i <= 9
        invariant display[..] == g && beat == old(beat)
        invariant forall k :: 0 <= k < ButtonCount ==>
          temp[k] == if Interior(k) && k % 10 < i then Next(g)[k] else old(temp[k])
      {
        var j := 1;
        while j < 9
          invariant 1 <= j <= 9
          invariant display[..] == g && beat == old(beat)
          invariant forall k :: 0 <= k < ButtonCount ==>
            temp[k] == if Interior(k) && (k % 10 < i || (k % 10 == i && k / 10 < j)) then Next(g)[k] else old(temp[k])
        {
          IndexCoordinates(i, j);
          temp[j * 10 + i] := DoesCellLive(display[..], i, j);
          j := j + 1;
        }
        i := i + 1;
      }
      forall k | 0 <= k < ButtonCount {
        display[k] := temp[k];
      }
      beat := Truth(beat == 0);
    }

    /** `app_timer_event`: a generation on the first call and then on every TICK_MS-th call. */
    method TimerEvent() returns (fired: bool)
      requires Valid()
      modifies this, display, temp
      ensures Valid()
      ensures (ms, fired) == Tick(old(ms))
      ensures display[..] == if fired then Next(old(display[..])) else old(display[..])
      ensures beat == if fired then Truth(old(beat) == 0) else old(beat)
    {
      ms := ms + 1;
      fired := ms >= TickMs;
      if fired {
        ms := 0;
        Generation();
      }
    }

    /** `app_surface_event`: a pad press toggles the pad; a release, or another event type, changes nothing. */
    method SurfaceEvent(kind: U8, index: U8, value: U8)
      requires Valid() && index < ButtonCount
      modifies display
      ensures Valid()
      ensures display[..] == if kind == TypePad && value != 0
        then old(display[..])[index := Toggle(old(display[index]))]
        else old(display[..])
    {
      if kind == TypePad && value != 0 {
        display[index] := MaxLed * Truth(display[index] == 0);
      }
    }
  }
}
