/** The FSM compiler: from a list of symbolic transitions to a table of indices. */
module Fsm {
  import opened Common

  datatype Result<T> = Ok(value: T) | Err(error: Error)
  datatype Error = FirstStateInvalid | NotContiguous | TargetNotFound

  datatype Guard = Always | Never | OnEntry | OnPopped | User(id: nat)
  datatype Trigger = Guarded(guard: Guard) | Input(symbol: string)
  datatype Action = Nothing | Push | Pop | Consume | Custom(id: nat)

  /** A transition as written.  Without a `from` it belongs to the state of the row before; without
      a `to` it only runs its action. */
  datatype Row = Row(from: Option<string>, trigger: Trigger, action: Action, to: Option<string>)

  datatype Compiled = Compiled(trigger: Trigger, action: Action, from: Option<string>, to: nat)

  // ---------------------------------------------------------------- the list

  /** The state that row `i` belongs to, named by itself or inherited. */
  function StateOf(rows: seq<Row>, i: nat): Option<string>
    requires i < |rows|
  {
    if rows[i].from.Some? then rows[i].from
    else if i == 0 then None else StateOf(rows, i - 1)
  }

  /** The rows of a state are next to each other. */
  ghost predicate Contiguous(rows: seq<Row>) {
    forall i, j, k :: 0 <= i <= j <= k < |rows| && StateOf(rows, i) == StateOf(rows, k)
      ==> StateOf(rows, j) == StateOf(rows, i)
  }

  ghost predicate Named(rows: seq<Row>, state: Option<string>) {
    exists i :: 0 <= i < |rows| && rows[i].from == state
  }

  ghost predicate TargetsExist(rows: seq<Row>) {
    forall i :: 0 <= i < |rows| && rows[i].to.Some? ==> Named(rows, rows[i].to)
  }

  ghost predicate WellFormed(rows: seq<Row>) {
    (rows == [] || rows[0].from.Some?) && Contiguous(rows) && TargetsExist(rows)
  }

  // ---------------------------------------------------------------- the table

  /** Row `i` names another state than the row before it. */
  predicate Starts(rows: seq<Row>, i: nat)
    requires i < |rows|
  {
    rows[i].from.Some? && (i == 0 || StateOf(rows, i - 1) != rows[i].from)
  }

  /** The index of a state in the table: one more than that of the first row that names it. */
  function Head(rows: seq<Row>, state: Option<string>): nat {
    if state.None? then 0 else FirstNamed(rows, state, 0) + 1
  }

  function FirstNamed(rows: seq<Row>, state: Option<string>, i: nat): (k: nat)
    requires i <= |rows|
    ensures i <= k <= |rows|
    ensures k < |rows| ==> rows[k].from == state
    ensures forall j :: i <= j < k ==> rows[j].from != state
    decreases |rows| - i
  {
    if i == |rows| || rows[i].from == state then i else FirstNamed(rows, state, i + 1)
  }

  function CompiledRow(rows: seq<Row>, i: nat): Compiled
    requires i < |rows|
  {
    Compiled(rows[i].trigger, rows[i].action, if Starts(rows, i) then rows[i].from else None,
             Head(rows, rows[i].to))
  }

  /** The one and only table for a list: an initial row, then one for each row of the list. */
  ghost predicate IsTable(table: seq<Compiled>, rows: seq<Row>) {
    && |table| == |rows| + 1
    && table[0] == (if rows == [] then Compiled(Guarded(Never), Nothing, None, 0)
                    else Compiled(Guarded(Always), Nothing, None, 1))
    && forall i :: 0 <= i < |rows| ==> table[i + 1] == CompiledRow(rows, i)
  }

  /** What `compile` tests for each row where a state starts: it is the first to name that state. */
  predicate StartsFirst(rows: seq<Row>, i: nat)
    requires i < |rows|
  {
    Starts(rows, i) ==> FirstNamed(rows, rows[i].from, 0) == i
  }

  lemma {:induction false} NamedBefore(rows: seq<Row>, i: nat) returns (j: nat)
    requires i < |rows| && StateOf(rows, i).Some?
    ensures j <= i && rows[j].from == StateOf(rows, i)
  {
    if rows[i].from.Some? { j := i; } else { j := NamedBefore(rows, i - 1); }
  }

  /** Between a row of another state and a row of `StateOf(rows, k)`, that state starts. */
  lemma {:induction false} StartsBetween(rows: seq<Row>, j: nat, k: nat) returns (s: nat)
    requires j < k < |rows| && StateOf(rows, j) != StateOf(rows, k) && StateOf(rows, k).Some?
    ensures j < s <= k && Starts(rows, s) && rows[s].from == StateOf(rows, k)
    decreases k
  {
    if Starts(rows, k) { s := k; } else { s := StartsBetween(rows, j, k - 1); }
  }

  lemma {:induction false} StatesNamed(rows: seq<Row>, i: nat)
    requires i < |rows| && rows[0].from.Some?
    ensures StateOf(rows, i).Some?
  {
    if i > 0 { StatesNamed(rows, i - 1); }
  }

  /** The test that `compile` makes is contiguity of every state's rows. */
  lemma ContiguousIffStartsFirst(rows: seq<Row>)
    requires rows == [] || rows[0].from.Some?
    ensures Contiguous(rows) <==> forall i :: 0 <= i < |rows| ==> StartsFirst(rows, i)
  {
    if Contiguous(rows) {
      forall i | 0 <= i < |rows| ensures StartsFirst(rows, i) {
        if Starts(rows, i) && i > 0 {
          var j := FirstNamed(rows, rows[i].from, 0);
          assert StateOf(rows, j) == StateOf(rows, i);
          assert j <= i;
        }
      }
    }
    if forall i :: 0 <= i < |rows| ==> StartsFirst(rows, i) {
      forall i, j, k | 0 <= i <= j <= k < |rows| && StateOf(rows, i) == StateOf(rows, k)
        ensures StateOf(rows, j) == StateOf(rows, i)
      {
        if StateOf(rows, j) != StateOf(rows, i) {
          StatesNamed(rows, k);
          var s := StartsBetween(rows, j, k);
          assert StartsFirst(rows, s);
          var n := NamedBefore(rows, i);
        }
      }
    }
  }

  // ---------------------------------------------------------------- compiling

  method Find(state: Option<string>, rows: seq<Row>) returns (r: Result<nat>)
    ensures r.Ok? <==> state.None? || Named(rows, state)
    ensures r.Ok? ==> r.value == Head(rows, state) && r.value <= |rows|
    ensures r.Err? ==> r.error == TargetNotFound
  {
    if state.None? {
      return Ok(0);
    }
    var i := 0;
    while i < |rows|
      invariant 0 <= i <= |rows|
      invariant FirstNamed(rows, state, 0) == FirstNamed(rows, state, i)
      invariant forall j :: 0 <= j < i ==> rows[j].from != state
    {
      if rows[i].from == state {
        return Ok(i + 1);
      }
      i := i + 1;
    }
    return Err(TargetNotFound);
  }

  /** Accepts exactly the well-formed lists, and then returns the table. */
  method Compile(rows: seq<Row>) returns (r: Result<seq<Compiled>>)
    ensures r.Ok? <==> WellFormed(rows)
    ensures r.Ok? ==> IsTable(r.value, rows)
    ensures r == Err(FirstStateInvalid) <==> rows != [] && rows[0].from.None?
    ensures r == Err(NotContiguous) ==> !Contiguous(rows)
    ensures r == Err(TargetNotFound) ==> !TargetsExist(rows)
  {
    var table: seq<Compiled>;
    if |rows| == 0 {
      table := [Compiled(Guarded(Never), Nothing, None, 0)];
    } else {
      table := [Compiled(Guarded(Always), Nothing, None, 1)];
      if rows[0].from.None? {
        return Err(FirstStateInvalid);
      }
    }
    ContiguousIffStartsFirst(rows);
    var i := 0;
    var prev: Option<string> := None;
    while i < |rows|
      invariant 0 <= i <= |rows| && |table| == i + 1
      invariant prev == if i == 0 then None else StateOf(rows, i - 1)
      invariant table[0] == (if rows == [] then Compiled(Guarded(Never), Nothing, None, 0)
                             else Compiled(Guarded(Always), Nothing, None, 1))
      invariant forall j :: 0 <= j < i ==> table[j + 1] == CompiledRow(rows, j)
      invariant forall j :: 0 <= j < i ==> StartsFirst(rows, j)
      invariant forall j :: 0 <= j < i && rows[j].to.Some? ==> Named(rows, rows[j].to)
    {
      var t := rows[i];
      var from: Option<string> := None;
      if prev != t.from && t.from.Some? {
        prev, from := t.from, t.from;
        var first := Find(t.from, rows);
        assert Named(rows, t.from);
        if first.value != i + 1 {
          assert !StartsFirst(rows, i);
          return Err(NotContiguous);
        }
      }
      var to := Find(t.to, rows);
      if to.Err? {
        return Err(to.error);
      }
      table := table + [Compiled(t.trigger, t.action, from, to.value)];
      i := i + 1;
    }
    return Ok(table);
  }

  // ---------------------------------------------------------------- meaning

  /** The poll interval of a disabled guard that need not be polled. */
  const FOREVER: int := 0x7fff_ffff_ffff_ffff * 1_000_000_000

  /** A row was taken, or no guard is enabled and they may be tried again after an interval. */
  datatype Outcome<W> = Taken(row: nat, w: W) | Blocked(again: int, w: W)

  function Least(again: int, p: int): int {
    if p < again then p else again
  }

  /** What a list means: the rows of the state are tried in order.  Evaluating a guard gives a poll
      interval, which is not positive if the guard is enabled, and may change the world. */
  function Symbolic<W>(rows: seq<Row>, state: Option<string>, k: nat,
                       eval: (Trigger, W) -> (int, W), again: int, w: W): Outcome<W>
    requires k <= |rows|
    decreases |rows| - k
  {
    if k == |rows| then Blocked(again, w)
    else if StateOf(rows, k) != state then Symbolic(rows, state, k + 1, eval, again, w)
    else
      var (p, w') := eval(rows[k].trigger, w);
      if p <= 0 then Taken(k, w') else Symbolic(rows, state, k + 1, eval, Least(again, p), w')
  }

  /** The loop of `step` over the table. */
  function Scan<W>(table: seq<Compiled>, i: nat, eval: (Trigger, W) -> (int, W), again: int, w: W): (r: Outcome<W>)
    requires i < |table|
    ensures r.Taken? ==> i <= r.row < |table|
    decreases |table| - i
  {
    var (p, w') := eval(table[i].trigger, w);
    if p <= 0 then Taken(i, w')
    else if i + 1 == |table| || table[i + 1].from.Some? then Blocked(Least(again, p), w')
    else Scan(table, i + 1, eval, Least(again, p), w')
  }

  /** Rows of a list, as rows of its table. */
  function InTable<W>(o: Outcome<W>): Outcome<W> {
    match o
    case Taken(row, w) => Taken(row + 1, w)
    case Blocked(again, w) => o
  }

  lemma {:induction false} SkipOthers<W>(rows: seq<Row>, state: Option<string>, k: nat, h: nat,
                                         eval: (Trigger, W) -> (int, W), again: int, w: W)
    requires k <= h <= |rows| && forall j :: k <= j < h ==> StateOf(rows, j) != state
    ensures Symbolic(rows, state, k, eval, again, w) == Symbolic(rows, state, h, eval, again, w)
    decreases h - k
  {
    if k < h { SkipOthers(rows, state, k + 1, h, eval, again, w); }
  }

  lemma {:induction false} BlockMeans<W>(rows: seq<Row>, table: seq<Compiled>, state: Option<string>, k: nat,
                                         eval: (Trigger, W) -> (int, W), again: int, w: W)
    requires WellFormed(rows) && IsTable(table, rows) && k < |rows| && StateOf(rows, k) == state
    ensures Scan(table, k + 1, eval, again, w) == InTable(Symbolic(rows, state, k, eval, again, w))
    decreases |rows| - k
  {
    var (p, w') := eval(rows[k].trigger, w);
    assert table[k + 1] == CompiledRow(rows, k);
    if p > 0 && k + 1 < |rows| {
      assert table[k + 2] == CompiledRow(rows, k + 1);
      if Starts(rows, k + 1) {
        forall j | k + 1 <= j < |rows| ensures StateOf(rows, j) != state {
          assert StateOf(rows, k + 1) != StateOf(rows, k);
        }
        SkipOthers(rows, state, k + 1, |rows|, eval, Least(again, p), w');
      } else {
        BlockMeans(rows, table, state, k + 1, eval, Least(again, p), w');
      }
    }
  }

  /** Compilation preserves meaning: from the head index of a state, the table takes the same row
      with the same target as the list, or blocks for the same interval. */
  lemma CompiledMeans<W>(rows: seq<Row>, table: seq<Compiled>, state: Option<string>,
                         eval: (Trigger, W) -> (int, W), w: W)
    requires WellFormed(rows) && IsTable(table, rows) && state.Some? && Named(rows, state)
    ensures 0 < Head(rows, state) < |table|
    ensures Scan(table, Head(rows, state), eval, FOREVER, w)
            == InTable(Symbolic(rows, state, 0, eval, FOREVER, w))
  {
    var h := FirstNamed(rows, state, 0);
    forall j | 0 <= j < h ensures StateOf(rows, j) != state {
      if StateOf(rows, j) == state {
        var n := NamedBefore(rows, j);
      }
    }
    SkipOthers(rows, state, 0, h, eval, FOREVER, w);
    BlockMeans(rows, table, state, h, eval, FOREVER, w);
  }

  /** The index of a state is where the table names that state, and only there. */
  lemma HeadNames(rows: seq<Row>, table: seq<Compiled>, state: Option<string>)
    requires WellFormed(rows) && IsTable(table, rows) && state.Some? && Named(rows, state)
    ensures 0 < Head(rows, state) < |table|
    ensures forall i :: 0 <= i < |table| ==> (table[i].from == state <==> i == Head(rows, state))
  {
    var h := FirstNamed(rows, state, 0);
    ContiguousIffStartsFirst(rows);
    assert Starts(rows, h) by {
      if h > 0 && StateOf(rows, h - 1) == state {
        var n := NamedBefore(rows, h - 1);
      }
    }
    forall i | 0 <= i < |table| ensures table[i].from == state <==> i == h + 1 {
      if i > 0 {
        assert table[i] == CompiledRow(rows, i - 1);
        assert StartsFirst(rows, i - 1);
      }
    }
  }

  /** For guards without side effects: the row taken is the first enabled one of the state; if there
      is none, the interval is the least of all rows of the state. */
  lemma {:induction false} SymbolicPicksFirst(rows: seq<Row>, state: Option<string>, k: nat,
                                              f: Trigger -> int, again: int)
    requires k <= |rows|
    ensures match Symbolic(rows, state, k, (t: Trigger, w: ()) => (f(t), w), again, ())
            case Taken(row, _) =>
              && k <= row < |rows| && StateOf(rows, row) == state && f(rows[row].trigger) <= 0
              && forall j :: k <= j < row && StateOf(rows, j) == state ==> f(rows[j].trigger) > 0
            case Blocked(least, _) =>
              && least <= again
              && (forall j :: k <= j < |rows| && StateOf(rows, j) == state ==>
                    f(rows[j].trigger) > 0 && least <= f(rows[j].trigger))
              && (least == again ||
                  exists j :: k <= j < |rows| && StateOf(rows, j) == state && f(rows[j].trigger) == least)
    decreases |rows| - k
  {
    if k < |rows| {
      if StateOf(rows, k) != state {
        SymbolicPicksFirst(rows, state, k + 1, f, again);
      } else {
        SymbolicPicksFirst(rows, state, k + 1, f, Least(again, f(rows[k].trigger)));
      }
    }
  }
}
