/**
 The per-key asynchronous mutex built from chained promises.

 A call publishes its own promise in the slot of its key, waits for the promise
 it found there, runs its body and, whether the body returned or threw,
 resolves its promise and clears the slot if it still holds it.  JavaScript runs
 one turn at a time, so each of these is one step.  A promise is named by the
 call that made it.
 */
module AsyncLock {
  import opened Wrappers

  datatype Phase = Waiting(prior: Option<nat>) | Running | Finished

  datatype Call = Call(key: string, phase: Phase)

  datatype Lock = Lock(slots: map<string, nat>, calls: map<nat, Call>)

  datatype Step = Arrive(id: nat, key: string) | Start(id: nat) | Finish(id: nat, threw: bool)

  function Lookup<K, V>(m: map<K, V>, key: K): Option<V> {
    if key in m then Some(m[key]) else None
  }

  /** `mine` leaves: the slot is cleared only if nobody chained after it. */
  function ClearIfMine(slots: map<string, nat>, key: string, mine: nat): map<string, nat> {
    if Lookup(slots, key) == Some(mine) then slots - {key} else slots
  }

  predicate Resolved(calls: map<nat, Call>, promise: Option<nat>) {
    promise.None? || (promise.value in calls && calls[promise.value].phase.Finished?)
  }

  predicate Enabled(l: Lock, step: Step) {
    match step
    case Arrive(id, _) => id !in l.calls
    case Start(id) => id in l.calls && l.calls[id].phase.Waiting? && Resolved(l.calls, l.calls[id].phase.prior)
    case Finish(id, _) => id in l.calls && l.calls[id].phase.Running?
  }

  function Apply(l: Lock, step: Step): Lock
    requires Enabled(l, step)
  {
    match step
    case Arrive(id, key) => Lock(l.slots[key := id], l.calls[id := Call(key, Waiting(Lookup(l.slots, key)))])
    case Start(id) => l.(calls := l.calls[id := Call(l.calls[id].key, Running)])
    case Finish(id, _) =>
      Lock(ClearIfMine(l.slots, l.calls[id].key, id), l.calls[id := Call(l.calls[id].key, Finished)])
  }

  /** The lock map itself and the two turns that write it. */
  class LockMap {
    var slots: map<string, nat>

    constructor ()
      ensures slots == map[]
    {
      slots := map[];
    }

    method Enter(key: string, mine: nat) returns (prior: Option<nat>)
      modifies this
      ensures prior == Lookup(old(slots), key) && slots == old(slots)[key := mine]
    {
      prior := if key in slots then Some(slots[key]) else None;
      slots := slots[key := mine];
    }

    method Leave(key: string, mine: nat)
      modifies this
      ensures slots == ClearIfMine(old(slots), key, mine)
    {
      if key in slots && slots[key] == mine {
        slots := slots - {key};
      }
    }
  }

  const Init := Lock(map[], map[])

  predicate Runnable(l: Lock, steps: seq<Step>)
    decreases |steps|
  {
    steps == [] || (Enabled(l, steps[0]) && Runnable(Apply(l, steps[0]), steps[1..]))
  }

  function Run(l: Lock, steps: seq<Step>): Lock
    requires Runnable(l, steps)
    decreases |steps|
  {
    if steps == [] then l else Run(Apply(l, steps[0]), steps[1..])
  }

  // ----- The specification: one first-come-first-served line per key -----

  /** Calls in order of arrival; the first `started` have begun and the first `ended` are over. */
  datatype Line = Line(arrived: seq<nat>, started: nat, ended: nat)

  datatype Fifo = Fifo(lines: map<string, Line>, keys: map<nat, string>)

  const EmptyFifo := Fifo(map[], map[])

  function LineOf(f: Fifo, key: string): Line {
    if key in f.lines then f.lines[key] else Line([], 0, 0)
  }

  /** A call starts when it is next in line and nobody is inside. */
  predicate MayStart(line: Line, id: nat) {
    line.started == line.ended && line.started < |line.arrived| && line.arrived[line.started] == id
  }

  predicate Inside(line: Line, id: nat) {
    line.ended < line.started && line.ended < |line.arrived| && line.arrived[line.ended] == id
  }

  predicate FifoEnabled(f: Fifo, step: Step) {
    match step
    case Arrive(id, _) => id !in f.keys
    case Start(id) => id in f.keys && MayStart(LineOf(f, f.keys[id]), id)
    case Finish(id, _) => id in f.keys && Inside(LineOf(f, f.keys[id]), id)
  }

  function FifoApply(f: Fifo, step: Step): Fifo
    requires FifoEnabled(f, step)
  {
    match step
    case Arrive(id, key) =>
      var line := LineOf(f, key);
      Fifo(f.lines[key := line.(arrived := line.arrived + [id])], f.keys[id := key])
    case Start(id) =>
      var line := LineOf(f, f.keys[id]);
      f.(lines := f.lines[f.keys[id] := line.(started := line.started + 1)])
    case Finish(id, _) =>
      var line := LineOf(f, f.keys[id]);
      f.(lines := f.lines[f.keys[id] := line.(ended := line.ended + 1)])
  }

  predicate FifoRunnable(f: Fifo, steps: seq<Step>)
    decreases |steps|
  {
    steps == [] || (FifoEnabled(f, steps[0]) && FifoRunnable(FifoApply(f, steps[0]), steps[1..]))
  }

  function FifoRun(f: Fifo, steps: seq<Step>): Fifo
    requires FifoRunnable(f, steps)
    decreases |steps|
  {
    if steps == [] then f else FifoRun(FifoApply(f, steps[0]), steps[1..])
  }

  // ----- The promises implement the line -----

  /** The call at position `i` of the line of `key`. */
  predicate PlaceOk(calls: map<nat, Call>, key: string, line: Line, i: nat)
    requires i < |line.arrived|
  {
    line.arrived[i] in calls && calls[line.arrived[i]].key == key &&
    var phase := calls[line.arrived[i]].phase;
    if i < line.ended then phase.Finished?
    else if i < line.started then phase.Running?
    else phase.Waiting? && (if i == line.ended then Resolved(calls, phase.prior) else phase.prior == Some(line.arrived[i - 1]))
  }

  ghost predicate LineOk(calls: map<nat, Call>, key: string, line: Line) {
    && line.ended <= line.started <= line.ended + 1 && line.started <= |line.arrived|
    && (forall i: nat :: i < |line.arrived| ==> PlaceOk(calls, key, line, i))
    && (forall i, j :: 0 <= i < j < |line.arrived| ==> line.arrived[i] != line.arrived[j])
  }

  /** The slot holds the last call in line while anyone is inside or waiting, and is gone otherwise. */
  predicate SlotOk(slots: map<string, nat>, key: string, line: Line)
    requires line.ended <= |line.arrived|
  {
    Lookup(slots, key) == if line.ended < |line.arrived| then Some(line.arrived[|line.arrived| - 1]) else None
  }

  ghost predicate Implements(l: Lock, f: Fifo) {
    && f.keys.Keys == l.calls.Keys
    && (forall id :: id in l.calls ==> f.keys[id] == l.calls[id].key && id in LineOf(f, l.calls[id].key).arrived)
    && (forall key :: LineOk(l.calls, key, LineOf(f, key)) && SlotOk(l.slots, key, LineOf(f, key)))
  }

  lemma PositionOf(l: Lock, f: Fifo, id: nat) returns (i: nat)
    requires Implements(l, f) && id in l.calls
    ensures var line := LineOf(f, l.calls[id].key);
            i < |line.arrived| && line.arrived[i] == id && PlaceOk(l.calls, l.calls[id].key, line, i) && LineOk(l.calls, l.calls[id].key, line)
  {
    var line := LineOf(f, l.calls[id].key);
    assert LineOk(l.calls, l.calls[id].key, line) && id in line.arrived;
    i :| 0 <= i < |line.arrived| && line.arrived[i] == id;
  }

  /** A step is possible for the promises exactly when it is possible for the line. */
  lemma SameStepsEnabled(l: Lock, f: Fifo, step: Step)
    requires Implements(l, f)
    ensures Enabled(l, step) <==> FifoEnabled(f, step)
  {
    if !step.Arrive? && step.id in l.calls {
      var i := PositionOf(l, f, step.id);
      var line := LineOf(f, l.calls[step.id].key);
      assert i > line.ended ==> PlaceOk(l.calls, l.calls[step.id].key, line, i - 1);
      if line.started < |line.arrived| && line.started == line.ended {
        assert PlaceOk(l.calls, l.calls[step.id].key, line, line.started);
      }
    }
  }

  /** Nothing in the line of `key` depends on the calls of other keys. */
  lemma OtherLine(calls: map<nat, Call>, calls': map<nat, Call>, key: string, line: Line)
    requires LineOk(calls, key, line)
    requires forall c :: c in calls && calls[c].key == key ==> c in calls' && calls'[c] == calls[c]
    requires forall c :: c in calls && calls[c].phase.Finished? ==> c in calls' && calls'[c].phase.Finished?
    ensures LineOk(calls', key, line)
  {
    forall i: nat | i < |line.arrived|
      ensures PlaceOk(calls', key, line, i)
    {
      assert PlaceOk(calls, key, line, i);
    }
  }

  lemma JoinLine(l: Lock, key: string, line: Line, id: nat)
    requires LineOk(l.calls, key, line) && SlotOk(l.slots, key, line) && Enabled(l, Arrive(id, key))
    ensures var line' := line.(arrived := line.arrived + [id]);
            LineOk(Apply(l, Arrive(id, key)).calls, key, line') && SlotOk(Apply(l, Arrive(id, key)).slots, key, line')
  {
    var calls', line' := Apply(l, Arrive(id, key)).calls, line.(arrived := line.arrived + [id]);
    forall i: nat | i < |line'.arrived|
      ensures PlaceOk(calls', key, line', i)
    {
      if i < |line.arrived| {
        assert PlaceOk(l.calls, key, line, i);
      }
    }
    forall i, j | 0 <= i < j < |line'.arrived| ensures line'.arrived[i] != line'.arrived[j] {
      assert PlaceOk(l.calls, key, line, i);
    }
  }

  lemma EnterLine(l: Lock, key: string, line: Line, id: nat)
    requires LineOk(l.calls, key, line) && MayStart(line, id) && Enabled(l, Start(id))
    ensures LineOk(Apply(l, Start(id)).calls, key, line.(started := line.started + 1))
  {
    var calls', line' := Apply(l, Start(id)).calls, line.(started := line.started + 1);
    forall i: nat | i < |line.arrived|
      ensures PlaceOk(calls', key, line', i)
    {
      assert PlaceOk(l.calls, key, line, i);
    }
  }

  lemma LeaveLine(l: Lock, key: string, line: Line, id: nat, threw: bool)
    requires LineOk(l.calls, key, line) && Inside(line, id) && Enabled(l, Finish(id, threw)) && l.calls[id].key == key
    ensures LineOk(Apply(l, Finish(id, threw)).calls, key, line.(ended := line.ended + 1))
  {
    var calls', line' := Apply(l, Finish(id, threw)).calls, line.(ended := line.ended + 1);
    assert line.arrived[line.ended] == id && line'.ended == line'.started;
    forall i: nat | i < |line.arrived|
      ensures PlaceOk(calls', key, line', i)
    {
      assert PlaceOk(l.calls, key, line, i);
      assert i != line.ended ==> line.arrived[i] != id;
    }
  }

  lemma LeaveSlot(l: Lock, key: string, line: Line, id: nat, threw: bool)
    requires LineOk(l.calls, key, line) && SlotOk(l.slots, key, line)
    requires Inside(line, id) && Enabled(l, Finish(id, threw)) && l.calls[id].key == key
    ensures SlotOk(Apply(l, Finish(id, threw)).slots, key, line.(ended := line.ended + 1))
  {
    assert line.ended < |line.arrived| - 1 ==> line.arrived[|line.arrived| - 1] != line.arrived[line.ended];
  }

  function KeyOf(l: Lock, step: Step): string
    requires Enabled(l, step)
  {
    if step.Arrive? then step.key else l.calls[step.id].key
  }

  /** The line of the step's own key is as it should be afterwards. */
  lemma OwnLine(l: Lock, f: Fifo, step: Step)
    requires Implements(l, f) && Enabled(l, step) && FifoEnabled(f, step)
    ensures var key, line' := KeyOf(l, step), LineOf(FifoApply(f, step), KeyOf(l, step));
            LineOk(Apply(l, step).calls, key, line') && SlotOk(Apply(l, step).slots, key, line')
  {
    var key := KeyOf(l, step);
    var line, line' := LineOf(f, key), LineOf(FifoApply(f, step), key);
    assert LineOk(l.calls, key, line) && SlotOk(l.slots, key, line);
    match step
    case Arrive(id, _) =>
      assert line' == line.(arrived := line.arrived + [id]);
      JoinLine(l, key, line, id);
    case Start(id) =>
      assert line' == line.(started := line.started + 1);
      EnterLine(l, key, line, id);
    case Finish(id, threw) =>
      assert line' == line.(ended := line.ended + 1);
      LeaveLine(l, key, line, id, threw);
      LeaveSlot(l, key, line, id, threw);
  }

  lemma OtherKey(l: Lock, f: Fifo, step: Step, key: string)
    requires Implements(l, f) && Enabled(l, step) && FifoEnabled(f, step) && key != KeyOf(l, step)
    ensures LineOf(FifoApply(f, step), key) == LineOf(f, key)
    ensures LineOk(Apply(l, step).calls, key, LineOf(f, key)) && SlotOk(Apply(l, step).slots, key, LineOf(f, key))
  {
    assert LineOk(l.calls, key, LineOf(f, key)) && SlotOk(l.slots, key, LineOf(f, key));
    OtherLine(l.calls, Apply(l, step).calls, key, LineOf(f, key));
  }

  lemma CallOk(l: Lock, f: Fifo, step: Step, c: nat)
    requires Implements(l, f) && Enabled(l, step) && FifoEnabled(f, step) && c in Apply(l, step).calls
    ensures var l', f' := Apply(l, step), FifoApply(f, step);
            c in f'.keys && f'.keys[c] == l'.calls[c].key && c in LineOf(f', l'.calls[c].key).arrived
  {
    var f' := FifoApply(f, step);
    if c in l.calls {
      var line := LineOf(f, l.calls[c].key);
      assert c in line.arrived;
      assert line.arrived <= LineOf(f', l.calls[c].key).arrived;
    } else {
      assert c in [c];
    }
  }

  lemma LinesOk(l: Lock, f: Fifo, step: Step)
    requires Implements(l, f) && Enabled(l, step) && FifoEnabled(f, step)
    ensures forall key :: LineOk(Apply(l, step).calls, key, LineOf(FifoApply(f, step), key))
                          && SlotOk(Apply(l, step).slots, key, LineOf(FifoApply(f, step), key))
  {
    forall key
      ensures LineOk(Apply(l, step).calls, key, LineOf(FifoApply(f, step), key))
      ensures SlotOk(Apply(l, step).slots, key, LineOf(FifoApply(f, step), key))
    {
      if key == KeyOf(l, step) {
        OwnLine(l, f, step);
      } else {
        OtherKey(l, f, step, key);
      }
    }
  }

  lemma StepImplements(l: Lock, f: Fifo, step: Step)
    requires Implements(l, f) && Enabled(l, step) && FifoEnabled(f, step)
    ensures Implements(Apply(l, step), FifoApply(f, step))
  {
    LinesOk(l, f, step);
    var l', f' := Apply(l, step), FifoApply(f, step);
    forall c | c in l'.calls ensures f'.keys[c] == l'.calls[c].key && c in LineOf(f', l'.calls[c].key).arrived {
      CallOk(l, f, step, c);
    }
  }

  /**
   The promise chain and the line have the same runs, whichever bodies throw:
   calls start in order of arrival, one at a time per key, and no call can be
   held up by anything but the line.
   */
  lemma {:induction false} ChainIsFifo(l: Lock, f: Fifo, steps: seq<Step>)
    requires Implements(l, f)
    ensures Runnable(l, steps) <==> FifoRunnable(f, steps)
    ensures Runnable(l, steps) ==> Implements(Run(l, steps), FifoRun(f, steps))
    decreases |steps|
  {
    if steps != [] {
      SameStepsEnabled(l, f, steps[0]);
      if Enabled(l, steps[0]) {
        StepImplements(l, f, steps[0]);
        ChainIsFifo(Apply(l, steps[0]), FifoApply(f, steps[0]), steps[1..]);
      }
    }
  }

  /** At most one call per key is inside. */
  lemma OneInside(l: Lock, f: Fifo, a: nat, b: nat)
    requires Implements(l, f) && a in l.calls && b in l.calls && l.calls[a].key == l.calls[b].key
    requires l.calls[a].phase.Running? && l.calls[b].phase.Running?
    ensures a == b
  {
    var i := PositionOf(l, f, a);
    var j := PositionOf(l, f, b);
  }

  predicate Unfinished(l: Lock, key: string, id: nat) {
    id in l.calls && l.calls[id].key == key && !l.calls[id].phase.Finished?
  }

  /** Over every run: mutual exclusion, no leaked slot, and somebody can always move. */
  lemma LocksAreSafeAndLive(steps: seq<Step>, key: string)
    requires Runnable(Init, steps)
    ensures var l := Run(Init, steps);
            && (forall a, b :: Unfinished(l, key, a) && Unfinished(l, key, b) && l.calls[a].phase.Running? && l.calls[b].phase.Running? ==> a == b)
            && (key in l.slots <==> exists id :: Unfinished(l, key, id))
            && (key in l.slots ==> exists id :: Unfinished(l, key, id) && (Enabled(l, Start(id)) || Enabled(l, Finish(id, false))))
  {
    ChainIsFifo(Init, EmptyFifo, steps);
    var l, f := Run(Init, steps), FifoRun(EmptyFifo, steps);
    forall a, b | Unfinished(l, key, a) && Unfinished(l, key, b) && l.calls[a].phase.Running? && l.calls[b].phase.Running?
      ensures a == b
    {
      OneInside(l, f, a, b);
    }
    var line := LineOf(f, key);
    assert LineOk(l.calls, key, line) && SlotOk(l.slots, key, line);
    if key in l.slots {
      var id := line.arrived[line.ended];
      assert PlaceOk(l.calls, key, line, line.ended);
      assert Unfinished(l, key, id) && (Enabled(l, Start(id)) || Enabled(l, Finish(id, false)));
    }
    if id :| Unfinished(l, key, id) {
      var i := PositionOf(l, f, id);
      assert i >= line.ended;
    }
  }
}
