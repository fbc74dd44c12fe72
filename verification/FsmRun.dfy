/** `BasicFsm`: running a compiled table. */
module FsmRun {
  import opened Common
  import opened Fsm

  /** `BasicFsm::Flag`, without the one that only concerns `Fsm::run`. */
  datatype Flags = Flags(
    entry: bool, selfloop: bool, blocked: bool, transition: bool, pushed: bool, popped: bool, input: bool)

  /** The fields of the FSM.  `fires` counts how often the entry guard was enabled since the last
      time that the entry flag was set. */
  datatype Machine = Machine(
    state: nat, prev: nat, transition: nat, flags: Flags, stack: seq<nat>, inputs: seq<string>, fires: nat)

  const NoFlags := Flags(false, false, false, false, false, false, false)

  const Fresh := Machine(0, 0, 0, NoFlags, [], [], 0)

  // ---------------------------------------------------------------- operations

  /** `enabled`.  A custom guard may return anything; the entry guard clears the entry flag. */
  function Evaluate(t: Trigger, m: Machine, custom: nat -> int): (int, Machine) {
    match t
    case Input(symbol) => (if symbol in m.inputs then 0 else FOREVER, m)
    case Guarded(Always) => (0, m)
    case Guarded(Never) => (FOREVER, m)
    case Guarded(OnEntry) =>
      if m.flags.entry then (0, m.(flags := m.flags.(entry := false), fires := m.fires + 1)) else (FOREVER, m)
    case Guarded(OnPopped) => (if m.flags.popped then 0 else FOREVER, m)
    case Guarded(User(id)) => (custom(id), m)
  }

  function Evaluator(custom: nat -> int): (Trigger, Machine) -> (int, Machine) {
    (t: Trigger, m: Machine) => Evaluate(t, m, custom)
  }

  function SetEntry(m: Machine): Machine {
    m.(flags := m.flags.(entry := true), fires := 0)
  }

  function DoPush(m: Machine): Machine {
    m.(stack := m.stack + [m.prev], flags := m.flags.(pushed := true))
  }

  /** `pop`; None stands for its assertion that there is a state to return to. */
  function DoPop(m: Machine): Option<Machine> {
    if m.stack == [] || m.stack[|m.stack| - 1] == 0 then None
    else
      var to := m.stack[|m.stack| - 1];
      var flags := m.flags.(blocked := false, selfloop := m.state == to, transition := true,
                            pushed := false, popped := true, input := false);
      Some(SetEntry(m.(prev := m.state, state := to, stack := m.stack[..|m.stack| - 1],
                       transition := 0, flags := flags)))
  }

  /** `clearInput`: the last symbol takes the place of the first match. */
  function ClearInput(inputs: seq<string>, symbol: string): seq<string> {
    if symbol !in inputs then inputs
    else
      var j := IndexOf(inputs, symbol);
      inputs[j := inputs[|inputs| - 1]][..|inputs| - 1]
  }

  /** The symbol that brought the FSM here, if the input flag says so. */
  function CurrentInput(table: seq<Compiled>, m: Machine): Option<string> {
    if m.flags.input && m.transition < |table| && table[m.transition].trigger.Input?
    then Some(table[m.transition].trigger.symbol) else None
  }

  /** `enter`: runs the action of the transition.  Custom actions act on the rest of the program. */
  function Enter(table: seq<Compiled>, m: Machine): Option<Machine>
    requires m.transition < |table|
  {
    if m.transition == 0 then Some(m)
    else
      match table[m.transition].action
      case Push => Some(DoPush(m))
      case Pop => DoPop(m)
      case Consume =>
        var symbol := CurrentInput(table, m);
        Some(if symbol.None? then m else m.(inputs := ClearInput(m.inputs, symbol.value)))
      case Nothing => Some(m)
      case Custom(id) => Some(m)
  }

  /** The second half of `step`: row `i` is taken. */
  function Take(table: seq<Compiled>, i: nat, m: Machine): Option<Machine>
    requires i < |table|
  {
    var isInput := table[i].trigger.Input?;
    var to := table[i].to;
    if to == 0 then
      Enter(table, m.(transition := i, flags := m.flags.(blocked := false, transition := false, input := isInput)))
    else
      var flags := m.flags.(blocked := false, selfloop := to == m.state, transition := true,
                            popped := false, pushed := false, input := isInput);
      var r := Enter(table, m.(transition := i, prev := m.state, state := to, flags := flags));
      if r.None? then None else Some(SetEntry(r.value))
  }

  /** `step`; None stands for a failed assertion in `pop`. */
  function Step(table: seq<Compiled>, m: Machine, custom: nat -> int): Option<Machine>
    requires m.state < |table|
  {
    match Scan(table, m.state, Evaluator(custom), FOREVER, m)
    case Blocked(again, w) => Some(w.(flags := w.flags.(blocked := true)))
    case Taken(i, w) => Take(table, i, w)
  }

  /** What can happen to an FSM from outside. */
  datatype Event = StepOnce(custom: nat -> int) | GiveInput(symbol: string) | TakeInput(symbol: string) | Reset

  function Apply(table: seq<Compiled>, m: Machine, e: Event): Option<Machine>
    requires m.state < |table|
  {
    match e
    case StepOnce(custom) => Step(table, m, custom)
    case GiveInput(symbol) => Some(m.(inputs := m.inputs + [symbol]))
    case TakeInput(symbol) => Some(m.(inputs := ClearInput(m.inputs, symbol)))
    case Reset => Some(Fresh.(inputs := m.inputs))
  }

  // ---------------------------------------------------------------- what every run keeps

  predicate IsHead(table: seq<Compiled>, i: nat) {
    0 < i < |table| && table[i].from.Some?
  }

  /** A table as `compile` makes it. */
  ghost predicate Runnable(table: seq<Compiled>) {
    && |table| > 0
    && table[0].action == Nothing && table[0].trigger.Guarded? && table[0].from.None?
    && (|table| > 1 ==> table[0].trigger == Guarded(Always) && IsHead(table, 1))
    && (forall i :: 0 <= i < |table| && table[i].to != 0 ==> IsHead(table, table[i].to))
  }

  ghost predicate Inv(table: seq<Compiled>, m: Machine) {
    // the state is the initial one or the head of a state
    && (m.state == 0 || IsHead(table, m.state))
    && (m.prev == 0 || IsHead(table, m.prev))
    // and so are those that are stacked
    && (forall i :: 0 <= i < |m.stack| ==> m.stack[i] == 0 || IsHead(table, m.stack[i]))
    // the input flag is only set for a row with an input
    && (m.flags.input ==> 0 < m.transition < |table| && table[m.transition].trigger.Input?)
    && m.transition < |table|
    // the entry guard is enabled at most once per entry
    && m.fires + (if m.flags.entry then 1 else 0) <= 1
  }

  lemma TableRunnable(rows: seq<Row>, table: seq<Compiled>)
    requires WellFormed(rows) && IsTable(table, rows)
    ensures Runnable(table)
  {
    forall i | 0 <= i < |table| && table[i].to != 0 ensures IsHead(table, table[i].to) {
      if i > 0 {
        assert table[i] == CompiledRow(rows, i - 1);
        HeadNames(rows, table, rows[i - 1].to);
      } else {
        assert table[1] == CompiledRow(rows, 0);
      }
    }
    if rows != [] { assert table[1] == CompiledRow(rows, 0); }
  }

  /** `w` differs from `m` only in what the entry guard does. */
  ghost predicate Looked(m: Machine, w: Machine) {
    && w == m.(flags := m.flags.(entry := w.flags.entry), fires := w.fires)
    && w.fires + (if w.flags.entry then 1 else 0) == m.fires + (if m.flags.entry then 1 else 0)
  }

  lemma {:induction false} ScanLooks(table: seq<Compiled>, i: nat, custom: nat -> int, again: int, m: Machine)
    requires i < |table|
    ensures Looked(m, Scan(table, i, Evaluator(custom), again, m).w)
    decreases |table| - i
  {
    var eval := Evaluator(custom);
    var (p, w) := eval(table[i].trigger, m);
    if p > 0 && i + 1 < |table| && table[i + 1].from.None? {
      ScanLooks(table, i + 1, custom, Least(again, p), w);
    }
  }

  lemma EnterKeeps(table: seq<Compiled>, m: Machine)
    requires Runnable(table) && Inv(table, m)
    ensures Enter(table, m).Some? ==> Inv(table, Enter(table, m).value)
  {
  }

  lemma TakeKeeps(table: seq<Compiled>, i: nat, m: Machine)
    requires Runnable(table) && Inv(table, m) && i < |table|
    ensures Take(table, i, m).Some? ==> Inv(table, Take(table, i, m).value)
  {
    var isInput := table[i].trigger.Input?;
    var to := table[i].to;
    if to == 0 {
      EnterKeeps(table, m.(transition := i,
                           flags := m.flags.(blocked := false, transition := false, input := isInput)));
    } else {
      var flags := m.flags.(blocked := false, selfloop := to == m.state, transition := true,
                            popped := false, pushed := false, input := isInput);
      EnterKeeps(table, m.(transition := i, prev := m.state, state := to, flags := flags));
    }
  }

  lemma ApplyKeeps(table: seq<Compiled>, m: Machine, e: Event)
    requires Runnable(table) && Inv(table, m)
    ensures Apply(table, m, e).Some? ==> Inv(table, Apply(table, m, e).value)
  {
    if e.StepOnce? {
      var eval := Evaluator(e.custom);
      ScanLooks(table, m.state, e.custom, FOREVER, m);
      var o := Scan(table, m.state, eval, FOREVER, m);
      if o.Taken? {
        TakeKeeps(table, o.row, o.w);
      }
    }
  }

  // ---------------------------------------------------------------- runs

  /** The machines `ms` that a run passes through while the events `es` happen, in which no assertion
      of `pop` fails. */
  ghost predicate Trace(table: seq<Compiled>, ms: seq<Machine>, es: seq<Event>) {
    && |ms| == |es| + 1
    && forall k :: 0 <= k < |es| ==>
         ms[k].state < |table| && Apply(table, ms[k], es[k]) == Some(ms[k + 1])
  }

  lemma {:induction false} TraceKeeps(table: seq<Compiled>, ms: seq<Machine>, es: seq<Event>, k: nat)
    requires Runnable(table) && Trace(table, ms, es) && Inv(table, ms[0]) && k < |ms|
    ensures Inv(table, ms[k])
  {
    if k > 0 {
      TraceKeeps(table, ms, es, k - 1);
      assert Apply(table, ms[k - 1], es[k - 1]) == Some(ms[k]);
      ApplyKeeps(table, ms[k - 1], es[k - 1]);
    }
  }

  /** For every well-formed list, every run of a fresh FSM. */
  lemma RunKeeps(rows: seq<Row>, table: seq<Compiled>, ms: seq<Machine>, es: seq<Event>, k: nat)
    requires WellFormed(rows) && IsTable(table, rows)
    requires Trace(table, ms, es) && ms[0] == Fresh && k < |ms|
    ensures Inv(table, ms[k])
  {
    TableRunnable(rows, table);
    TraceKeeps(table, ms, es, k);
  }

  // ---------------------------------------------------------------- push and pop

  /** The row that an event takes. */
  function TakenRow(table: seq<Compiled>, m: Machine, e: Event): Option<nat>
    requires m.state < |table|
  {
    match e
    case StepOnce(custom) =>
      (match Scan(table, m.state, Evaluator(custom), FOREVER, m)
       case Taken(i, _) => Some(i)
       case Blocked(_, _) => None)
    case _ => None
  }

  predicate Pushes(table: seq<Compiled>, m: Machine, e: Event)
    requires m.state < |table|
  {
    var i := TakenRow(table, m, e);
    i.Some? && i.value < |table| && table[i.value].action == Push
  }

  /** The event takes a row with a target. */
  predicate Leaves(table: seq<Compiled>, m: Machine, e: Event)
    requires m.state < |table|
  {
    var i := TakenRow(table, m, e);
    i.Some? && i.value < |table| && table[i.value].to != 0
  }

  /** What one event can do to the stack: a row that pushes stores the state that is left, if it has a
      target, and else the state before. */
  ghost predicate StackMoves(table: seq<Compiled>, m: Machine, e: Event, m': Machine)
    requires m.state < |table|
  {
    if Pushes(table, m, e) then m'.stack == m.stack + [if Leaves(table, m, e) then m.state else m.prev]
    else
      || m'.stack == m.stack
      || (m.stack != [] && m'.stack == m.stack[..|m.stack| - 1] && m'.state == m.stack[|m.stack| - 1] && !e.Reset?)
      || (m'.stack == [] && e.Reset?)
  }

  lemma ApplyMoves(table: seq<Compiled>, m: Machine, e: Event)
    requires Runnable(table) && Inv(table, m)
    ensures Apply(table, m, e).Some? ==> StackMoves(table, m, e, Apply(table, m, e).value)
  {
    if e.StepOnce? {
      ScanLooks(table, m.state, e.custom, FOREVER, m);
      var o := Scan(table, m.state, Evaluator(e.custom), FOREVER, m);
      if o.Taken? { TakeMoves(table, o.row, o.w); }
    }
  }

  lemma TakeMoves(table: seq<Compiled>, i: nat, m: Machine)
    requires i < |table| && (i == 0 ==> table[0].action == Nothing)
    ensures var r := Take(table, i, m);
            r.Some? ==>
              if table[i].action == Push then r.value.stack == m.stack + [if table[i].to != 0 then m.state else m.prev]
              else
                || r.value.stack == m.stack
                || (m.stack != [] && r.value.stack == m.stack[..|m.stack| - 1]
                    && r.value.state == m.stack[|m.stack| - 1])
  {
  }

  lemma TraceMoves(table: seq<Compiled>, ms: seq<Machine>, es: seq<Event>, k: nat)
    requires Runnable(table) && Trace(table, ms, es) && Inv(table, ms[0]) && k < |es|
    ensures Inv(table, ms[k]) && StackMoves(table, ms[k], es[k], ms[k + 1])
    ensures Pushes(table, ms[k], es[k]) ==> IsHead(table, ms[k].state)
  {
    TraceKeeps(table, ms, es, k);
    assert Apply(table, ms[k], es[k]) == Some(ms[k + 1]);
    ApplyMoves(table, ms[k], es[k]);
    PushesInState(table, ms[k], es[k]);
  }

  /** The initial row, which is the only one of the initial state, does not push. */
  lemma PushesInState(table: seq<Compiled>, m: Machine, e: Event)
    requires Runnable(table) && Inv(table, m)
    ensures Pushes(table, m, e) ==> IsHead(table, m.state)
  {
    if m.state == 0 && e.StepOnce? && |table| > 1 {
      assert TakenRow(table, m, e) == Some(0);
    }
  }

  lemma {:induction false} StackBelow(table: seq<Compiled>, ms: seq<Machine>, es: seq<Event>, n: nat, a: nat, b: nat)
    requires Runnable(table) && Trace(table, ms, es) && Inv(table, ms[0]) && a <= b < |ms|
    requires forall k :: a <= k <= b ==> |ms[k].stack| >= n
    ensures ms[b].stack[..n] == ms[a].stack[..n]
  {
    if a < b {
      StackBelow(table, ms, es, n, a, b - 1);
      TraceMoves(table, ms, es, b - 1);
    }
  }

  /** Push and pop match: if the first event of a run pushes, and the last one is the first to bring
      the stack back to its old height, then the stack is what it was, and the state is the one that
      the push stored.  That is the state in which the push was made if and only if the row that
      pushes has a target, or the state before was the same. */
  lemma PopReturnsToPush(table: seq<Compiled>, ms: seq<Machine>, es: seq<Event>)
    requires Runnable(table) && Trace(table, ms, es) && Inv(table, ms[0]) && |es| >= 2
    requires var n, z := |ms[0].stack|, |es|;
             && |ms[1].stack| == n + 1
             && (forall k :: 1 <= k < z ==> |ms[k].stack| > n)
             && |ms[z].stack| == n && !es[z - 1].Reset?
    ensures ms[0].state < |table| && Pushes(table, ms[0], es[0])
    ensures ms[|es|].stack == ms[0].stack
    ensures ms[|es|].state == if Leaves(table, ms[0], es[0]) then ms[0].state else ms[0].prev
    ensures ms[|es|].state == ms[0].state <==> Leaves(table, ms[0], es[0]) || ms[0].prev == ms[0].state
  {
    var n, z := |ms[0].stack|, |es|;
    TraceMoves(table, ms, es, 0);
    var top := if Leaves(table, ms[0], es[0]) then ms[0].state else ms[0].prev;
    assert ms[1].stack == ms[0].stack + [top];
    StackBelow(table, ms, es, n + 1, 1, z - 1);
    TraceMoves(table, ms, es, z - 1);
    TopOff(ms[0].stack, top, ms[z - 1].stack);
  }

  /** Every event that pushes, in every run: when what it stores is the state in which it is made, and
      when it is one that `pop` accepts. */
  lemma PushStoresIff(rows: seq<Row>, table: seq<Compiled>, ms: seq<Machine>, es: seq<Event>, k: nat)
    requires WellFormed(rows) && IsTable(table, rows)
    requires Trace(table, ms, es) && ms[0] == Fresh && k < |es| && Pushes(table, ms[k], es[k])
    ensures var m, s := ms[k], ms[k + 1].stack;
            && |s| == |m.stack| + 1 && s[..|m.stack|] == m.stack
            && (s[|m.stack|] == m.state <==> Leaves(table, m, es[k]) || m.prev == m.state)
            && (IsHead(table, s[|m.stack|]) <==> Leaves(table, m, es[k]) || m.prev != 0)
  {
    TableRunnable(rows, table);
    TraceMoves(table, ms, es, k);
  }

  /** A push that stores the initial state, to which `pop` refuses to return. */
  predicate StoresInitial(table: seq<Compiled>, m: Machine, e: Event)
    requires m.state < |table|
  {
    Pushes(table, m, e) && !Leaves(table, m, e) && m.prev == 0
  }

  ghost predicate HeadsStacked(table: seq<Compiled>, m: Machine) {
    forall i :: 0 <= i < |m.stack| ==> IsHead(table, m.stack[i])
  }

  ghost predicate StoresInitialAt(table: seq<Compiled>, ms: seq<Machine>, es: seq<Event>, k: nat)
    requires Trace(table, ms, es) && k < |es|
  {
    StoresInitial(table, ms[k], es[k])
  }

  lemma StepStacksHeads(table: seq<Compiled>, ms: seq<Machine>, es: seq<Event>, k: nat)
    requires Runnable(table) && Trace(table, ms, es) && Inv(table, ms[0]) && k < |es| && HeadsStacked(table, ms[k])
    ensures HeadsStacked(table, ms[k + 1]) <==> !StoresInitialAt(table, ms, es, k)
  {
    TraceMoves(table, ms, es, k);
    if StoresInitialAt(table, ms, es, k) {
      assert ms[k + 1].stack[|ms[k].stack|] == 0;
    }
  }

  lemma {:induction false} HeadsUntil(table: seq<Compiled>, ms: seq<Machine>, es: seq<Event>, k: nat)
    requires Runnable(table) && Trace(table, ms, es) && ms[0] == Fresh && k < |ms|
    requires forall j :: 0 <= j < |es| ==> !StoresInitialAt(table, ms, es, j)
    ensures HeadsStacked(table, ms[k])
  {
    if k > 0 {
      HeadsUntil(table, ms, es, k - 1);
      StepStacksHeads(table, ms, es, k - 1);
    }
  }

  lemma NoInitialStored(table: seq<Compiled>, ms: seq<Machine>, es: seq<Event>, k: nat)
    requires Runnable(table) && Trace(table, ms, es) && ms[0] == Fresh && k < |es|
    requires forall j :: 0 <= j < |ms| ==> HeadsStacked(table, ms[j])
    ensures !StoresInitialAt(table, ms, es, k)
  {
    assert HeadsStacked(table, ms[k]) && HeadsStacked(table, ms[k + 1]);
    StepStacksHeads(table, ms, es, k);
  }

  /** In exactly which runs only heads of states are ever stacked: in those in which no row without a
      target pushes while the state before is the initial one. */
  lemma HeadsStackedIff(rows: seq<Row>, table: seq<Compiled>, ms: seq<Machine>, es: seq<Event>)
    requires WellFormed(rows) && IsTable(table, rows) && Trace(table, ms, es) && ms[0] == Fresh
    ensures (forall k :: 0 <= k < |ms| ==> HeadsStacked(table, ms[k])) <==>
            (forall k :: 0 <= k < |es| ==> !StoresInitialAt(table, ms, es, k))
  {
    TableRunnable(rows, table);
    if forall k :: 0 <= k < |es| ==> !StoresInitialAt(table, ms, es, k) {
      forall k | 0 <= k < |ms| ensures HeadsStacked(table, ms[k]) { HeadsUntil(table, ms, es, k); }
    }
    if forall k :: 0 <= k < |ms| ==> HeadsStacked(table, ms[k]) {
      forall k | 0 <= k < |es| ensures !StoresInitialAt(table, ms, es, k) { NoInitialStored(table, ms, es, k); }
    }
  }

  /** In particular, in all runs of a list in which every row that pushes has a target. */
  lemma TargetedPushes(rows: seq<Row>, table: seq<Compiled>, ms: seq<Machine>, es: seq<Event>, k: nat)
    requires WellFormed(rows) && IsTable(table, rows) && Trace(table, ms, es) && ms[0] == Fresh && k < |ms|
    requires forall i :: 0 <= i < |rows| && rows[i].action == Push ==> rows[i].to.Some?
    ensures HeadsStacked(table, ms[k])
  {
    TableRunnable(rows, table);
    forall j | 0 <= j < |es| ensures !StoresInitialAt(table, ms, es, j) {
      if Pushes(table, ms[j], es[j]) {
        var i := TakenRow(table, ms[j], es[j]).value;
        assert i > 0 && table[i] == CompiledRow(rows, i - 1);
        HeadNames(rows, table, rows[i - 1].to);
      }
    }
    HeadsUntil(table, ms, es, k);
  }

  lemma TopOff(s: seq<nat>, top: nat, t: seq<nat>)
    requires |t| > |s| && t[..|s| + 1] == s + [top]
    ensures t[..|s|] == s && t[|s|] == top
  {
    assert t[..|s| + 1][|s|] == top && t[..|s|] == t[..|s| + 1][..|s|];
  }

  /** On a row without a target, a push stores the state before the current one.  In the first state
      that is the initial one, to which `pop` refuses to return. */
  lemma PushWithoutTarget()
    ensures var rows := [Row(Some("a"), Guarded(Always), Push, None)];
            var table := [Compiled(Guarded(Always), Nothing, None, 1),
                          Compiled(Guarded(Always), Push, Some("a"), 0)];
            var m := Step(table, Fresh, _ => 0);
            WellFormed(rows) && IsTable(table, rows) && m.Some? && m.value.state == 1
            && var m' := Step(table, m.value, _ => 0);
               m'.Some? && m'.value.stack == [0] && DoPop(m'.value) == None
  {
  }

  /** A step of the compiled FSM is a step of the list it was compiled from. */
  lemma StepMeans(rows: seq<Row>, table: seq<Compiled>, state: Option<string>, m: Machine, custom: nat -> int)
    requires WellFormed(rows) && IsTable(table, rows) && state.Some? && Named(rows, state)
    requires m.state == Head(rows, state)
    ensures m.state < |table|
    ensures Step(table, m, custom) ==
              match Symbolic(rows, state, 0, Evaluator(custom), FOREVER, m)
              case Blocked(again, w) => Some(w.(flags := w.flags.(blocked := true)))
              case Taken(k, w) => if k + 1 < |table| then Take(table, k + 1, w) else None
  {
    CompiledMeans(rows, table, state, Evaluator(custom), m);
  }

  // ---------------------------------------------------------------- in place

  class BasicFsm {
    const table: seq<Compiled>
    var state: nat
    var prev: nat
    var transition: nat
    var flags: Flags
    var stack: seq<nat>
    var inputs: seq<string>
    ghost var fires: nat

    ghost function Get(): Machine
      reads this
    {
      Machine(state, prev, transition, flags, stack, inputs, fires)
    }

    constructor (table: seq<Compiled>)
      ensures this.table == table && Get() == Fresh
    {
      this.table := table;
      state, prev, transition, flags, stack, inputs, fires := 0, 0, 0, NoFlags, [], [], 0;
    }

    method Enabled(i: nat, custom: nat -> int) returns (p: int)
      requires i < |table|
      modifies this`flags, this`fires
      ensures (p, Get()) == Evaluate(table[i].trigger, old(Get()), custom)
    {
      match table[i].trigger
      case Input(symbol) =>
        var found := HasInput(symbol);
        p := if found then 0 else FOREVER;
      case Guarded(guard) =>
        match guard
        case Always => p := 0;
        case Never => p := FOREVER;
        case OnEntry =>
          if flags.entry {
            flags, fires := flags.(entry := false), fires + 1;
            p := 0;
          } else {
            p := FOREVER;
          }
        case OnPopped => p := if flags.popped then 0 else FOREVER;
        case User(id) => p := custom(id);
    }

    method HasInput(symbol: string) returns (found: bool)
      ensures found <==> symbol in inputs
    {
      for j := 0 to |inputs|
        invariant symbol !in inputs[..j]
      {
        if inputs[j] == symbol {
          return true;
        }
      }
      return false;
    }

    method RemoveInput(symbol: string) returns (found: bool)
      modifies this`inputs
      ensures found <==> symbol in old(inputs)
      ensures inputs == ClearInput(old(inputs), symbol)
    {
      for j := 0 to |inputs|
        invariant symbol !in inputs[..j] && inputs == old(inputs)
        invariant symbol in inputs <==> symbol in inputs[j..]
        invariant symbol in inputs ==> IndexOf(inputs, symbol) == j + IndexOf(inputs[j..], symbol)
      {
        if inputs[j] == symbol {
          assert inputs[j..][0] == symbol;
          inputs := inputs[j := inputs[|inputs| - 1]];
          inputs := inputs[..|inputs| - 1];
          return true;
        }
        assert inputs[j..][1..] == inputs[j + 1..];
      }
      return false;
    }

    method PushState()
      modifies this
      ensures Get() == DoPush(old(Get()))
    {
      stack := stack + [prev];
      flags := flags.(pushed := true);
    }

    method PopState()
      requires DoPop(Get()).Some?
      modifies this
      ensures Get() == DoPop(old(Get())).value
    {
      var to := stack[|stack| - 1];
      flags := flags.(blocked := false, selfloop := state == to);
      if !flags.transition {
        flags := flags.(transition := true);
      }
      prev := state;
      state := to;
      stack := stack[..|stack| - 1];
      transition := 0;
      flags := flags.(pushed := false, popped := true, input := false);
      flags, fires := flags.(entry := true), 0;
    }

    method EnterState()
      requires transition < |table| && Enter(table, Get()).Some?
      modifies this
      ensures Get() == Enter(table, old(Get())).value
    {
      if transition != 0 {
        match table[transition].action
        case Push => PushState();
        case Pop => PopState();
        case Consume =>
          if flags.input && table[transition].trigger.Input? {
            var found := RemoveInput(table[transition].trigger.symbol);
          }
        case Nothing =>
        case Custom(id) =>
      }
    }

    /** `step`, as long as it meets the assertion of `pop`. */
    method StepNow(custom: nat -> int) returns (p: int)
      requires state < |table| && Step(table, Get(), custom).Some?
      modifies this
      ensures Get() == Step(table, old(Get()), custom).value
      ensures match Scan(table, old(state), Evaluator(custom), FOREVER, old(Get()))
              case Taken(i, w) => p == 0
              case Blocked(again, w) => p == again > 0
    {
      ghost var m0, eval := Get(), Evaluator(custom);
      var i, again := state, FOREVER;
      p := Enabled(i, custom);
      while p > 0
        invariant i < |table| && 0 < again <= FOREVER
        invariant exists w :: Scan(table, m0.state, eval, FOREVER, m0) == Scan(table, i, eval, again, w)
                              && (p, Get()) == eval(table[i].trigger, w)
        decreases |table| - i
      {
        if p < again {
          again := p;
        }
        i := i + 1;
        if i == |table| || table[i].from.Some? {
          flags := flags.(blocked := true);
          return again;
        }
        p := Enabled(i, custom);
      }
      TakeRow(i);
      p := 0;
    }

    method TakeRow(i: nat)
      requires i < |table| && Take(table, i, Get()).Some?
      modifies this
      ensures Get() == Take(table, i, old(Get())).value
    {
      transition := i;
      var to, isInput := table[i].to, table[i].trigger.Input?;
      flags := flags.(blocked := false);
      if to == 0 {
        flags := flags.(transition := false, input := isInput);
        EnterState();
      } else {
        flags := flags.(selfloop := to == state, transition := true);
        prev := state;
        state := to;
        flags := flags.(popped := false, pushed := false, input := isInput);
        EnterState();
        flags, fires := flags.(entry := true), 0;
      }
    }
  }
}
