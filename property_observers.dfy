/** Property observers: a step counter whose `totalSteps` announces every
    new value before it is stored (`willSet`) and, once stored, reports how
    many steps were added when the total went up (`didSet`). */
module PropertyObservers {

  import opened SwiftInt

  /** One line the observers put on the console, or the runtime trap that
      `didSet` hits when `totalSteps - oldValue` overflows `Int`. */
  datatype Notice =
    | AboutToSet(newTotalSteps: int)  // "about to set totalSteps to N"
    | Added(steps: int)               // "added N steps"
    | OverflowTrap                    // the program stops

  /** What one assignment of `newTotal` over `oldTotal` puts out: the
      `willSet` announcement, then the `didSet` report when the total grew. */
  function Observe(oldTotal: Int, newTotal: Int): (r: seq<Notice>)
    ensures 1 <= |r| <= 2 && r[0] == AboutToSet(newTotal)
    ensures |r| == 2 <==> newTotal > oldTotal
    ensures |r| == 2 ==> r[1] == (if SubtractionTraps(newTotal, oldTotal) then OverflowTrap
                                  else Added(newTotal - oldTotal))
  {
    [AboutToSet(newTotal)] +
    if newTotal <= oldTotal then []
    else if SubtractionTraps(newTotal, oldTotal) then [OverflowTrap]
    else [Added(newTotal - oldTotal)]
  }

  /** `didSet` can only trap when the old total was negative and the new one
      lies more than `Int.max` above it; -1 followed by `Int.max` is such a pair. */
  lemma TrapNeedsNegativeOldTotal(oldTotal: Int, newTotal: Int)
    ensures Halted(Observe(oldTotal, newTotal)) <==> newTotal - oldTotal > MaxInt
    ensures Halted(Observe(oldTotal, newTotal)) ==> oldTotal < 0
    ensures Observe(-1, MaxInt) == [AboutToSet(MaxInt), OverflowTrap]
  {
  }

  /** The value `totalSteps` holds after assigning each of `values` in turn,
      starting from `start`. */
  function Last(start: Int, values: seq<Int>): Int
  {
    if values == [] then start else values[|values| - 1]
  }

  /** The console output of assigning `values` one after the other to a
      counter holding `start`; the run ends at the first trap. */
  function Replay(start: Int, values: seq<Int>): seq<Notice>
    decreases |values|
  {
    if values == [] then []
    else
      var first := Observe(start, values[0]);
      if OverflowTrap in first then first
      else first + Replay(values[0], values[1..])
  }

  /** The run has trapped: nothing after it is executed. */
  predicate Halted(console: seq<Notice>)
  {
    OverflowTrap in console
  }

  /** The values announced by the `willSet` lines of `console`, in order. */
  function Announced(console: seq<Notice>): seq<int>
  {
    if console == [] then []
    else (if console[0].AboutToSet? then [console[0].newTotalSteps] else []) + Announced(console[1..])
  }

  /** The sum of the steps reported by the `didSet` lines of `console`. */
  function AddedTotal(console: seq<Notice>): int
  {
    if console == [] then 0
    else (if console[0].Added? then console[0].steps else 0) + AddedTotal(console[1..])
  }

  /** Every total in the run is at least the one before it. */
  predicate NonDecreasing(start: Int, values: seq<Int>)
  {
    && (|values| > 0 ==> start <= values[0])
    && forall i | 0 < i < |values| :: values[i - 1] <= values[i]
  }

  lemma {:induction false} AnnouncedAppend(a: seq<Notice>, b: seq<Notice>)
    ensures Announced(a + b) == Announced(a) + Announced(b)
    decreases |a|
  {
    if a != [] {
      assert (a + b)[1..] == a[1..] + b;
      assert (a + b)[0] == a[0];
      AnnouncedAppend(a[1..], b);
    } else {
      assert a + b == b;
    }
  }

  lemma {:induction false} AddedTotalAppend(a: seq<Notice>, b: seq<Notice>)
    ensures AddedTotal(a + b) == AddedTotal(a) + AddedTotal(b)
    decreases |a|
  {
    if a != [] {
      assert (a + b)[1..] == a[1..] + b;
      assert (a + b)[0] == a[0];
      AddedTotalAppend(a[1..], b);
    } else {
      assert a + b == b;
    }
  }

  lemma HaltedAppend(a: seq<Notice>, b: seq<Notice>)
    ensures Halted(a + b) <==> Halted(a) || Halted(b)
  {
  }

  /** Assigning one more value extends the console by exactly what that
      assignment's observers print, as long as the run has not trapped. */
  lemma {:induction false} ReplaySnoc(start: Int, values: seq<Int>, v: Int)
    requires !Halted(Replay(start, values))
    ensures Replay(start, values + [v]) == Replay(start, values) + Observe(Last(start, values), v)
    decreases |values|
  {
    if values == [] {
      assert [v][1..] == [];
    } else {
      var first := Observe(start, values[0]);
      assert (values + [v])[0] == values[0];
      assert (values + [v])[1..] == values[1..] + [v];
      HaltedAppend(first, Replay(values[0], values[1..]));
      assert !Halted(first);
      ReplaySnoc(values[0], values[1..], v);
      assert Last(values[0], values[1..]) == Last(start, values);
    }
  }

  /** Until it traps, a run announces every assigned value, in order, and
      nothing else. */
  lemma {:induction false} ReplayAnnouncesEveryValue(start: Int, values: seq<Int>)
    requires !Halted(Replay(start, values))
    ensures Announced(Replay(start, values)) == values
    decreases |values|
  {
    if values != [] {
      var first := Observe(start, values[0]);
      HaltedAppend(first, Replay(values[0], values[1..]));
      AnnouncedAppend(first, Replay(values[0], values[1..]));
      assert Announced(first) == [values[0]] by {
        assert Announced([first[0]]) == [values[0]];
        if |first| == 2 { AnnouncedAppend([first[0]], [first[1]]); assert first == [first[0]] + [first[1]]; }
      }
      ReplayAnnouncesEveryValue(values[0], values[1..]);
      assert [values[0]] + values[1..] == values;
    }
  }

  /** A run whose totals never go down, starting from a non-negative total,
      never traps, and the steps it reports add up to the whole increase. */
  lemma {:induction false} ReplayAddsUpIncrease(start: Int, values: seq<Int>)
    requires 0 <= start && NonDecreasing(start, values)
    ensures !Halted(Replay(start, values))
    ensures AddedTotal(Replay(start, values)) == Last(start, values) - start
    decreases |values|
  {
    if values != [] {
      var first := Observe(start, values[0]);
      assert start <= values[0];
      assert !Halted(first);
      assert AddedTotal(first) == values[0] - start by {
        assert AddedTotal([first[0]]) == 0;
        if |first| == 2 { AddedTotalAppend([first[0]], [first[1]]); assert first == [first[0]] + [first[1]]; }
      }
      assert NonDecreasing(values[0], values[1..]) by {
        forall i | 0 < i < |values[1..]| ensures values[1..][i - 1] <= values[1..][i] {
          assert values[1..][i] == values[i + 1];
        }
        if |values| > 1 { assert values[0] <= values[1]; }
      }
      ReplayAddsUpIncrease(values[0], values[1..]);
      HaltedAppend(first, Replay(values[0], values[1..]));
      AddedTotalAppend(first, Replay(values[0], values[1..]));
    }
  }

  /** The counter of the playground: 0, then 200, 360 and 896 steps, as a
      run of `Replay`; `StepCounterDemo` below obtains the same six notices
      from the `StepCounter` class itself. */
  lemma PlaygroundTrace()
    ensures Replay(0, [200, 360, 896]) ==
      [AboutToSet(200), Added(200), AboutToSet(360), Added(160), AboutToSet(896), Added(536)]
  {
  }

  /** `class StepCounter`, whose stored property `totalSteps` carries the two
      observers. `console` is what they have printed so far. */
  class StepCounter {
    var totalSteps: Int
    var console: seq<Notice>
    ghost var history: seq<Int>  // every value assigned so far, in order

    ghost predicate Valid()
      reads this
    {
      totalSteps == Last(0, history) && console == Replay(0, history)
    }

    /** `totalSteps` starts at 0 and nothing has been printed. */
    constructor ()
      ensures Valid() && history == []
      ensures totalSteps == 0 && console == []
    {
      totalSteps := 0;
      console := [];
      history := [];
    }

    /** `stepCounter.totalSteps = newTotal`: `willSet` announces the new value,
        the value is stored, and `didSet` reports the steps added when it
        exceeds the old one. Returns the notices of this assignment. */
    method SetTotalSteps(newTotal: Int) returns (notices: seq<Notice>)
      requires Valid() && !Halted(console)
      modifies this
      ensures Valid() && history == old(history) + [newTotal]
      ensures totalSteps == newTotal
      ensures notices == Observe(old(totalSteps), newTotal)
      ensures console == old(console) + notices
    {
      ReplaySnoc(0, history, newTotal);
      var oldValue := totalSteps;
      notices := [AboutToSet(newTotal)];                 // willSet
      totalSteps := newTotal;
      if totalSteps > oldValue {                          // didSet
        if SubtractionTraps(totalSteps, oldValue) {
          notices := notices + [OverflowTrap];
        } else {
          notices := notices + [Added(totalSteps - oldValue)];
        }
      }
      console := console + notices;
      history := history + [newTotal];
    }
  }

  /** The three assignments of the playground and what they print, done on
      a `StepCounter` object (the same notices as `PlaygroundTrace`). */
  method StepCounterDemo() returns (printed: seq<Notice>)
    ensures printed ==
      [AboutToSet(200), Added(200), AboutToSet(360), Added(160), AboutToSet(896), Added(536)]
  {
    var stepCounter := new StepCounter();
    var _ := stepCounter.SetTotalSteps(200);
    var _ := stepCounter.SetTotalSteps(360);
    var _ := stepCounter.SetTotalSteps(896);
    printed := stepCounter.console;
  }
}
