/**
 Secure storage changed only under the per-key mutex: the ratchet session of a
 handle and the one-time prekey of an id.

 A body reads the value, computes, and writes a new value (for an update, after
 checking once more that there is one) or deletes it.  Every storage call may
 fail; a failing write or delete may have landed.  What a body computes is a
 parameter: `effect(q, v)` is None when it throws, and otherwise the value to
 write (None to delete) and the answer.
 */
module GuardedStore {
  import opened Wrappers
  import L = AsyncLock

  datatype Pc<V, R> =
    | Outside | Entered | Loaded(v: V, next: Option<V>, answer: R) | Rechecked(v: V, next: Option<V>, answer: R)
    | Returned(answer: R) | Threw

  datatype Job<Q, V, R> = Job(key: string, q: Q, pc: Pc<V, R>)

  /** A write that landed. */
  datatype Entry<Q> = Entry(id: nat, key: string, q: Q)

  /** `issued` remembers the first value of each key and `log` the writes in the order they landed. */
  datatype State<Q, V, R> = State(lock: L.Lock, stored: map<string, V>, jobs: map<nat, Job<Q, V, R>>,
                                  issued: map<string, V>, log: seq<Entry<Q>>)

  datatype Step<Q, V> =
    | Put(key: string, v: V)
    | Call(id: nat, key: string, q: Q)
    | Begin(id: nat)
    | Load(id: nat, ok: bool)
    | Recheck(id: nat, ok: bool)
    | Write(id: nat, landed: bool, ok: bool)
    | End(id: nat)

  type Effect<!Q, !V, R> = (Q, V) -> Option<(Option<V>, R)>

  function Empty<Q, V, R>(): State<Q, V, R> {
    State(L.Init, map[], map[], map[], [])
  }

  /** The keys under which values are first stored are generated, so they are fresh. */
  predicate Enabled<Q, V, R>(s: State<Q, V, R>, step: Step<Q, V>) {
    match step
    case Put(key, _) => key !in s.issued
    case Call(id, key, _) => L.Enabled(s.lock, L.Arrive(id, key))
    case Begin(id) => id in s.jobs && s.jobs[id].pc.Outside? && L.Enabled(s.lock, L.Start(id))
    case Load(id, _) => id in s.jobs && s.jobs[id].pc.Entered?
    case Recheck(id, _) => id in s.jobs && s.jobs[id].pc.Loaded? && s.jobs[id].pc.next.Some?
    case Write(id, landed, ok) =>
      id in s.jobs && (s.jobs[id].pc.Rechecked? || (s.jobs[id].pc.Loaded? && s.jobs[id].pc.next.None?)) && (ok ==> landed)
    case End(id) =>
      id in s.jobs && (s.jobs[id].pc.Returned? || s.jobs[id].pc.Threw?) && L.Enabled(s.lock, L.Finish(id, s.jobs[id].pc.Threw?))
  }

  function At<Q, V, R>(s: State<Q, V, R>, id: nat, pc: Pc<V, R>): State<Q, V, R>
    requires id in s.jobs
  {
    s.(jobs := s.jobs[id := s.jobs[id].(pc := pc)])
  }

  function AfterLoad<Q, V, R>(effect: Effect<Q, V, R>, q: Q, found: Option<V>): Pc<V, R> {
    match found
    case None => Threw
    case Some(v) =>
      match effect(q, v)
      case None => Threw
      case Some((next, answer)) => Loaded(v, next, answer)
  }

  function Written<V>(stored: map<string, V>, key: string, next: Option<V>): map<string, V> {
    match next
    case None => stored - {key}
    case Some(v) => stored[key := v]
  }

  function Apply<Q, V, R>(effect: Effect<Q, V, R>, s: State<Q, V, R>, step: Step<Q, V>): State<Q, V, R>
    requires Enabled(s, step)
  {
    match step
    case Put(key, v) => s.(stored := s.stored[key := v], issued := s.issued[key := v])
    case Call(id, key, q) => s.(lock := L.Apply(s.lock, L.Arrive(id, key)), jobs := s.jobs[id := Job(key, q, Outside)])
    case Begin(id) => At(s.(lock := L.Apply(s.lock, L.Start(id))), id, Entered)
    case Load(id, ok) =>
      At(s, id, AfterLoad(effect, s.jobs[id].q, if ok then L.Lookup(s.stored, s.jobs[id].key) else None))
    case Recheck(id, ok) =>
      var job := s.jobs[id];
      At(s, id, if ok && job.key in s.stored then Rechecked(job.pc.v, job.pc.next, job.pc.answer) else Threw)
    case Write(id, landed, ok) =>
      var job := s.jobs[id];
      var s' := if landed then s.(stored := Written(s.stored, job.key, job.pc.next), log := s.log + [Entry(id, job.key, job.q)]) else s;
      At(s', id, if ok then Returned(job.pc.answer) else Threw)
    case End(id) => s.(lock := L.Apply(s.lock, L.Finish(id, s.jobs[id].pc.Threw?)))
  }

  predicate Runnable<Q, V, R>(effect: Effect<Q, V, R>, s: State<Q, V, R>, steps: seq<Step<Q, V>>)
    decreases |steps|
  {
    steps == [] || (Enabled(s, steps[0]) && Runnable(effect, Apply(effect, s, steps[0]), steps[1..]))
  }

  function Run<Q, V, R>(effect: Effect<Q, V, R>, s: State<Q, V, R>, steps: seq<Step<Q, V>>): State<Q, V, R>
    requires Runnable(effect, s, steps)
    decreases |steps|
  {
    if steps == [] then s else Run(effect, Apply(effect, s, steps[0]), steps[1..])
  }

  // ----- The specification: the landed writes, one after the other -----

  function Replayed<Q, V, R>(effect: Effect<Q, V, R>, start: Option<V>, log: seq<Entry<Q>>, key: string): Option<V> {
    if log == [] then start
    else
      var before := Replayed(effect, start, log[..|log| - 1], key);
      var last := log[|log| - 1];
      if last.key != key || before.None? then before
      else match effect(last.q, before.value)
           case None => before
           case Some((next, _)) => next
  }

  /** What the call of entry `i` found when its turn came. */
  function FoundAt<Q, V, R>(effect: Effect<Q, V, R>, s: State<Q, V, R>, i: nat): Option<V>
    requires i < |s.log|
  {
    Replayed(effect, L.Lookup(s.issued, s.log[i].key), s.log[..i], s.log[i].key)
  }

  predicate LandedFrom<Q, V, R(==)>(effect: Effect<Q, V, R>, s: State<Q, V, R>, i: nat, answer: R)
    requires i < |s.log|
  {
    FoundAt(effect, s, i).Some? && effect(s.log[i].q, FoundAt(effect, s, i).value).Some?
    && effect(s.log[i].q, FoundAt(effect, s, i).value).value.1 == answer
  }

  // ----- Invariant -----

  predicate Busy<V, R>(pc: Pc<V, R>) {
    pc.Entered? || pc.Loaded? || pc.Rechecked?
  }

  predicate Over<V, R>(pc: Pc<V, R>) {
    pc.Returned? || pc.Threw?
  }

  predicate JobOk<Q, V(==), R(==)>(effect: Effect<Q, V, R>, s: State<Q, V, R>, id: nat)
    requires id in s.jobs
  {
    var job := s.jobs[id];
    && id in s.lock.calls && s.lock.calls[id].key == job.key
    && (job.pc.Outside? <==> s.lock.calls[id].phase.Waiting?)
    && (Busy(job.pc) ==> s.lock.calls[id].phase.Running?)
    && (job.pc.Loaded? || job.pc.Rechecked? ==>
          L.Lookup(s.stored, job.key) == Some(job.pc.v) && effect(job.q, job.pc.v) == Some((job.pc.next, job.pc.answer)))
  }

  predicate EntryOk<Q(==), V, R>(effect: Effect<Q, V, R>, s: State<Q, V, R>, i: nat)
    requires i < |s.log|
  {
    var e := s.log[i];
    && e.key in s.issued && e.id in s.jobs && s.jobs[e.id].key == e.key && s.jobs[e.id].q == e.q && Over(s.jobs[e.id].pc)
    && FoundAt(effect, s, i).Some? && effect(e.q, FoundAt(effect, s, i).value).Some?
  }

  /** A call that returned has landed, and answered what its turn called for. */
  ghost predicate AnswerOk<Q, V, R>(effect: Effect<Q, V, R>, s: State<Q, V, R>, id: nat)
    requires id in s.jobs
  {
    s.jobs[id].pc.Returned? ==> exists i: nat :: i < |s.log| && s.log[i].id == id && LandedFrom(effect, s, i, s.jobs[id].pc.answer)
  }

  ghost predicate Before(arrived: seq<nat>, a: nat, b: nat) {
    exists m: nat, n: nat :: m < n < |arrived| && arrived[m] == a && arrived[n] == b
  }

  ghost predicate InOrder<Q, V, R>(s: State<Q, V, R>, f: L.Fifo) {
    forall i, j :: 0 <= i < j < |s.log| && s.log[i].key == s.log[j].key ==>
      Before(L.LineOf(f, s.log[i].key).arrived, s.log[i].id, s.log[j].id)
  }

  ghost predicate StoreOk<Q, V, R>(effect: Effect<Q, V, R>, s: State<Q, V, R>) {
    forall key :: L.Lookup(s.stored, key) == Replayed(effect, L.Lookup(s.issued, key), s.log, key)
  }

  ghost predicate Inv<Q, V, R>(effect: Effect<Q, V, R>, s: State<Q, V, R>, f: L.Fifo) {
    && L.Implements(s.lock, f)
    && s.jobs.Keys == s.lock.calls.Keys
    && (forall id :: id in s.jobs ==> JobOk(effect, s, id))
    && (forall i: nat :: i < |s.log| ==> EntryOk(effect, s, i))
    && (forall id :: id in s.jobs ==> AnswerOk(effect, s, id))
    && StoreOk(effect, s)
    && InOrder(s, f)
  }

  // ----- Replaying -----

  lemma {:induction false} Untouched<Q, V, R>(effect: Effect<Q, V, R>, start: Option<V>, log: seq<Entry<Q>>, key: string)
    requires forall i :: 0 <= i < |log| ==> log[i].key != key
    ensures Replayed(effect, start, log, key) == start
    decreases |log|
  {
    if log != [] {
      Untouched(effect, start, log[..|log| - 1], key);
    }
  }

  lemma Appended<Q, V, R>(effect: Effect<Q, V, R>, start: Option<V>, log: seq<Entry<Q>>, e: Entry<Q>, key: string)
    ensures var before := Replayed(effect, start, log, key);
            Replayed(effect, start, log + [e], key)
            == if e.key != key || before.None? || effect(e.q, before.value).None? then before else effect(e.q, before.value).value.0
  {
    assert (log + [e])[..|log|] == log;
  }

  /** Entries of the log keep what they found when the log grows or another key is issued. */
  lemma FoundStays<Q, V, R>(effect: Effect<Q, V, R>, s: State<Q, V, R>, s': State<Q, V, R>, i: nat)
    requires i < |s.log| <= |s'.log| && s.log == s'.log[..|s.log|]
    requires L.Lookup(s'.issued, s.log[i].key) == L.Lookup(s.issued, s.log[i].key)
    ensures s'.log[i] == s.log[i] && FoundAt(effect, s', i) == FoundAt(effect, s, i)
  {
    assert s'.log[..i] == s.log[..i];
  }

  /** The log and the issued values may only grow, and only at keys not issued before. */
  predicate Grown<Q(==), V(==), R>(s: State<Q, V, R>, s': State<Q, V, R>) {
    && |s.log| <= |s'.log| && s.log == s'.log[..|s.log|]
    && forall key :: key in s.issued ==> key in s'.issued && s'.issued[key] == s.issued[key]
  }

  lemma AnswerStays<Q, V, R>(effect: Effect<Q, V, R>, s: State<Q, V, R>, s': State<Q, V, R>, id: nat)
    requires Grown(s, s') && forall i: nat :: i < |s.log| ==> EntryOk(effect, s, i)
    requires id in s.jobs && AnswerOk(effect, s, id) && id in s'.jobs && s'.jobs[id] == s.jobs[id]
    ensures AnswerOk(effect, s', id)
  {
    if s.jobs[id].pc.Returned? {
      var i: nat :| i < |s.log| && s.log[i].id == id && LandedFrom(effect, s, i, s.jobs[id].pc.answer);
      assert EntryOk(effect, s, i);
      FoundStays(effect, s, s', i);
      assert LandedFrom(effect, s', i, s'.jobs[id].pc.answer);
    }
  }

  lemma EntryStays<Q, V, R>(effect: Effect<Q, V, R>, s: State<Q, V, R>, s': State<Q, V, R>, i: nat)
    requires i < |s.log| && Grown(s, s') && EntryOk(effect, s, i)
    requires var id := s.log[i].id; id in s'.jobs && s'.jobs[id] == s.jobs[id]
    ensures EntryOk(effect, s', i)
  {
    FoundStays(effect, s, s', i);
  }

  // ----- Steps of the lock -----

  predicate LockStep<Q, V>(step: Step<Q, V>) {
    step.Call? || step.Begin? || step.End?
  }

  function ToLock<Q, V, R>(s: State<Q, V, R>, step: Step<Q, V>): L.Step
    requires LockStep(step) && Enabled(s, step)
  {
    match step
    case Call(id, key, _) => L.Arrive(id, key)
    case Begin(id) => L.Start(id)
    case End(id) => L.Finish(id, s.jobs[id].pc.Threw?)
  }

  lemma LinesGrow(f: L.Fifo, step: L.Step, key: string)
    requires L.FifoEnabled(f, step)
    ensures L.LineOf(f, key).arrived <= L.LineOf(L.FifoApply(f, step), key).arrived
  {
  }

  lemma OrderStays<Q, V, R>(s: State<Q, V, R>, s': State<Q, V, R>, f: L.Fifo, step: L.Step)
    requires InOrder(s, f) && s'.log == s.log && L.FifoEnabled(f, step)
    ensures InOrder(s', L.FifoApply(f, step))
  {
    var f' := L.FifoApply(f, step);
    forall i, j | 0 <= i < j < |s'.log| && s'.log[i].key == s'.log[j].key
      ensures Before(L.LineOf(f', s'.log[i].key).arrived, s'.log[i].id, s'.log[j].id)
    {
      var key := s.log[i].key;
      LinesGrow(f, step, key);
      var m: nat, n: nat :| m < n < |L.LineOf(f, key).arrived| && L.LineOf(f, key).arrived[m] == s.log[i].id && L.LineOf(f, key).arrived[n] == s.log[j].id;
      assert m < n < |L.LineOf(f', key).arrived| && L.LineOf(f', key).arrived[m] == s.log[i].id && L.LineOf(f', key).arrived[n] == s.log[j].id;
    }
  }

  lemma LockStepJob<Q, V, R>(effect: Effect<Q, V, R>, s: State<Q, V, R>, step: Step<Q, V>, id: nat)
    requires Enabled(s, step) && LockStep(step) && (step.Call? ==> step.id !in s.jobs)
    requires id in s.jobs ==> JobOk(effect, s, id)
    requires id in Apply(effect, s, step).jobs
    ensures JobOk(effect, Apply(effect, s, step), id)
  {
  }

  /** A job on its way has no entry in the log yet, so the log does not notice its steps. */
  lemma LogStays<Q, V, R>(effect: Effect<Q, V, R>, s: State<Q, V, R>, s': State<Q, V, R>, who: nat)
    requires Grown(s, s') && s'.log == s.log && forall i: nat :: i < |s.log| ==> EntryOk(effect, s, i)
    requires who in s.jobs ==> s'.jobs == s.jobs || !Over(s.jobs[who].pc)
    requires forall id :: id in s.jobs && id != who ==> id in s'.jobs && s'.jobs[id] == s.jobs[id]
    ensures forall i: nat :: i < |s'.log| ==> EntryOk(effect, s', i)
  {
    forall i: nat | i < |s'.log| ensures EntryOk(effect, s', i) {
      assert EntryOk(effect, s, i);
      EntryStays(effect, s, s', i);
    }
  }

  lemma AnswersStay<Q, V, R>(effect: Effect<Q, V, R>, s: State<Q, V, R>, s': State<Q, V, R>, who: nat)
    requires Grown(s, s') && (forall i: nat :: i < |s.log| ==> EntryOk(effect, s, i))
    requires forall id :: id in s.jobs ==> AnswerOk(effect, s, id)
    requires s'.jobs == s.jobs || (who in s'.jobs && !s'.jobs[who].pc.Returned?)
    requires s'.jobs.Keys == s.jobs.Keys + {who} && forall id :: id in s.jobs && id != who ==> s'.jobs[id] == s.jobs[id]
    ensures forall id :: id in s'.jobs ==> AnswerOk(effect, s', id)
  {
    forall id | id in s'.jobs ensures AnswerOk(effect, s', id) {
      if id in s.jobs && s'.jobs[id] == s.jobs[id] {
        AnswerStays(effect, s, s', id);
      }
    }
  }

  /** Only the job of `who` may change, and it neither was over nor has returned. */
  ghost predicate OnlyJob<Q, V, R>(s: State<Q, V, R>, s': State<Q, V, R>, who: nat) {
    && s'.log == s.log && s'.stored == s.stored && s'.issued == s.issued
    && s'.jobs.Keys == s.jobs.Keys + {who} && (forall id :: id in s.jobs && id != who ==> s'.jobs[id] == s.jobs[id])
    && (s'.jobs == s.jobs || (!s'.jobs[who].pc.Returned? && (who in s.jobs ==> !Over(s.jobs[who].pc))))
  }

  lemma LockStepJobOnly<Q, V, R>(effect: Effect<Q, V, R>, s: State<Q, V, R>, step: Step<Q, V>)
    requires Enabled(s, step) && LockStep(step) && (step.Call? ==> step.id !in s.jobs)
    ensures OnlyJob(s, Apply(effect, s, step), step.id)
  {
  }

  predicate SilentStep<Q, V>(step: Step<Q, V>) {
    step.Load? || step.Recheck? || (step.Write? && !step.landed)
  }

  lemma SilentJobOnly<Q, V, R>(effect: Effect<Q, V, R>, s: State<Q, V, R>, step: Step<Q, V>)
    requires Enabled(s, step) && SilentStep(step)
    ensures OnlyJob(s, Apply(effect, s, step), step.id) && Apply(effect, s, step).lock == s.lock
  {
  }

  lemma LogAndAnswersStay<Q, V, R>(effect: Effect<Q, V, R>, s: State<Q, V, R>, f: L.Fifo, s': State<Q, V, R>, who: nat)
    requires Inv(effect, s, f) && OnlyJob(s, s', who)
    ensures forall i: nat :: i < |s'.log| ==> EntryOk(effect, s', i)
    ensures forall id :: id in s'.jobs ==> AnswerOk(effect, s', id)
    ensures StoreOk(effect, s')
  {
    LogStays(effect, s, s', who);
    AnswersStay(effect, s, s', who);
    forall key ensures L.Lookup(s'.stored, key) == Replayed(effect, L.Lookup(s'.issued, key), s'.log, key) {
      assert L.Lookup(s.stored, key) == Replayed(effect, L.Lookup(s.issued, key), s.log, key);
    }
  }

  lemma LockStepFrame<Q, V, R>(effect: Effect<Q, V, R>, s: State<Q, V, R>, step: Step<Q, V>)
    requires Enabled(s, step) && LockStep(step) && s.jobs.Keys == s.lock.calls.Keys
    ensures var s' := Apply(effect, s, step);
            && s'.lock == L.Apply(s.lock, ToLock(s, step)) && s'.jobs.Keys == s'.lock.calls.Keys
            && s'.stored == s.stored && s'.issued == s.issued && s'.log == s.log
  {
  }

  lemma LockStepKeeps<Q, V, R>(effect: Effect<Q, V, R>, s: State<Q, V, R>, f: L.Fifo, step: Step<Q, V>) returns (f': L.Fifo)
    requires Inv(effect, s, f) && Enabled(s, step) && LockStep(step)
    ensures Inv(effect, Apply(effect, s, step), f')
  {
    var l := ToLock(s, step);
    L.SameStepsEnabled(s.lock, f, l);
    L.StepImplements(s.lock, f, l);
    f' := L.FifoApply(f, l);
    LockStepFrame(effect, s, step);
    LockStepJobOnly(effect, s, step);
    var s' := Apply(effect, s, step);
    LogAndAnswersStay(effect, s, f, s', step.id);
    OrderStays(s, s', f, l);
    forall id | id in s'.jobs ensures JobOk(effect, s', id) {
      LockStepJob(effect, s, step, id);
    }
  }

  // ----- Steps of a body that write nothing -----

  lemma SilentJob<Q, V, R>(effect: Effect<Q, V, R>, s: State<Q, V, R>, step: Step<Q, V>, id: nat)
    requires Enabled(s, step) && SilentStep(step) && id in s.jobs && JobOk(effect, s, id) && JobOk(effect, s, step.id)
    ensures JobOk(effect, Apply(effect, s, step), id)
  {
  }

  lemma SilentJobs<Q, V, R>(effect: Effect<Q, V, R>, s: State<Q, V, R>, step: Step<Q, V>)
    requires Enabled(s, step) && SilentStep(step) && forall id :: id in s.jobs ==> JobOk(effect, s, id)
    ensures forall id :: id in Apply(effect, s, step).jobs ==> JobOk(effect, Apply(effect, s, step), id)
  {
    SilentJobOnly(effect, s, step);
    forall id | id in Apply(effect, s, step).jobs ensures JobOk(effect, Apply(effect, s, step), id) {
      SilentJob(effect, s, step, id);
    }
  }

  lemma OrderUntouched<Q, V, R>(s: State<Q, V, R>, s': State<Q, V, R>, f: L.Fifo)
    requires InOrder(s, f) && s'.log == s.log
    ensures InOrder(s', f)
  {
  }

  lemma JobStepKeeps<Q, V, R>(effect: Effect<Q, V, R>, s: State<Q, V, R>, f: L.Fifo, s': State<Q, V, R>, who: nat)
    requires Inv(effect, s, f) && OnlyJob(s, s', who) && s'.lock == s.lock && who in s.jobs
    requires forall id :: id in s'.jobs ==> JobOk(effect, s', id)
    ensures Inv(effect, s', f)
  {
    LogAndAnswersStay(effect, s, f, s', who);
    OrderUntouched(s, s', f);
  }

  lemma SilentKeeps<Q, V, R>(effect: Effect<Q, V, R>, s: State<Q, V, R>, f: L.Fifo, step: Step<Q, V>)
    requires Inv(effect, s, f) && Enabled(s, step) && SilentStep(step)
    ensures Inv(effect, Apply(effect, s, step), f)
  {
    SilentJobOnly(effect, s, step);
    SilentJobs(effect, s, step);
    JobStepKeeps(effect, s, f, Apply(effect, s, step), step.id);
  }

  // ----- A value is issued -----

  lemma FreshKey<Q, V, R>(effect: Effect<Q, V, R>, s: State<Q, V, R>, f: L.Fifo, key: string)
    requires Inv(effect, s, f) && key !in s.issued
    ensures key !in s.stored && forall i :: 0 <= i < |s.log| ==> s.log[i].key != key
  {
    forall i: nat | i < |s.log| ensures s.log[i].key != key {
      assert EntryOk(effect, s, i);
    }
    Untouched(effect, L.Lookup(s.issued, key), s.log, key);
  }

  lemma PutStore<Q, V, R>(effect: Effect<Q, V, R>, s: State<Q, V, R>, f: L.Fifo, step: Step<Q, V>)
    requires Inv(effect, s, f) && Enabled(s, step) && step.Put?
    ensures StoreOk(effect, Apply(effect, s, step))
  {
    var s' := Apply(effect, s, step);
    FreshKey(effect, s, f, step.key);
    Untouched(effect, Some(step.v), s.log, step.key);
    forall key ensures L.Lookup(s'.stored, key) == Replayed(effect, L.Lookup(s'.issued, key), s'.log, key) {
      assert L.Lookup(s.stored, key) == Replayed(effect, L.Lookup(s.issued, key), s.log, key);
    }
  }

  lemma PutJobs<Q, V, R>(effect: Effect<Q, V, R>, s: State<Q, V, R>, f: L.Fifo, step: Step<Q, V>)
    requires Inv(effect, s, f) && Enabled(s, step) && step.Put?
    ensures var s' := Apply(effect, s, step);
            forall id :: id in s'.jobs ==> JobOk(effect, s', id) && AnswerOk(effect, s', id)
  {
    var s' := Apply(effect, s, step);
    FreshKey(effect, s, f, step.key);
    forall id | id in s'.jobs ensures JobOk(effect, s', id) && AnswerOk(effect, s', id) {
      assert JobOk(effect, s, id);
      AnswerStays(effect, s, s', id);
    }
  }

  lemma PutKeeps<Q, V, R>(effect: Effect<Q, V, R>, s: State<Q, V, R>, f: L.Fifo, step: Step<Q, V>)
    requires Inv(effect, s, f) && Enabled(s, step) && step.Put?
    ensures Inv(effect, Apply(effect, s, step), f)
  {
    var s' := Apply(effect, s, step);
    PutStore(effect, s, f, step);
    PutJobs(effect, s, f, step);
    FreshKey(effect, s, f, step.key);
    forall i: nat | i < |s'.log| ensures EntryOk(effect, s', i) {
      assert EntryOk(effect, s, i);
      EntryStays(effect, s, s', i);
    }
  }

  // ----- A write lands -----

  predicate Lands<Q, V, R>(s: State<Q, V, R>, step: Step<Q, V>) {
    Enabled(s, step) && step.Write? && step.landed
  }

  lemma LandedLast<Q, V, R>(effect: Effect<Q, V, R>, s: State<Q, V, R>, f: L.Fifo, step: Step<Q, V>)
    requires Inv(effect, s, f) && Lands(s, step)
    ensures var s' := Apply(effect, s, step);
            && |s'.log| == |s.log| + 1 && Grown(s, s') && EntryOk(effect, s', |s.log|)
            && FoundAt(effect, s', |s.log|) == Some(s.jobs[step.id].pc.v)
  {
    var s', job := Apply(effect, s, step), s.jobs[step.id];
    assert JobOk(effect, s, step.id);
    assert s'.log[..|s.log|] == s.log;
    assert L.Lookup(s.stored, job.key) == Replayed(effect, L.Lookup(s.issued, job.key), s.log, job.key);
    if job.key !in s.issued {
      FreshKey(effect, s, f, job.key);
    }
  }

  lemma LandedKey<Q, V, R>(effect: Effect<Q, V, R>, s: State<Q, V, R>, step: Step<Q, V>, key: string)
    requires Lands(s, step) && step.id in s.jobs && JobOk(effect, s, step.id) && StoreOk(effect, s)
    ensures var s' := Apply(effect, s, step);
            L.Lookup(s'.stored, key) == Replayed(effect, L.Lookup(s'.issued, key), s'.log, key)
  {
    var job := s.jobs[step.id];
    assert L.Lookup(s.stored, key) == Replayed(effect, L.Lookup(s.issued, key), s.log, key);
    Appended(effect, L.Lookup(s.issued, key), s.log, Entry(step.id, job.key, job.q), key);
  }

  lemma LandedStore<Q, V, R>(effect: Effect<Q, V, R>, s: State<Q, V, R>, f: L.Fifo, step: Step<Q, V>)
    requires Inv(effect, s, f) && Lands(s, step)
    ensures StoreOk(effect, Apply(effect, s, step))
  {
    assert JobOk(effect, s, step.id);
    var s' := Apply(effect, s, step);
    forall key ensures L.Lookup(s'.stored, key) == Replayed(effect, L.Lookup(s'.issued, key), s'.log, key) {
      LandedKey(effect, s, step, key);
    }
  }

  lemma LandedJobs<Q, V, R>(effect: Effect<Q, V, R>, s: State<Q, V, R>, f: L.Fifo, step: Step<Q, V>)
    requires Inv(effect, s, f) && Lands(s, step)
    ensures var s' := Apply(effect, s, step);
            forall id :: id in s'.jobs ==> JobOk(effect, s', id) && AnswerOk(effect, s', id)
  {
    var s' := Apply(effect, s, step);
    assert JobOk(effect, s, step.id);
    LandedLast(effect, s, f, step);
    forall id | id in s'.jobs ensures JobOk(effect, s', id) && AnswerOk(effect, s', id) {
      assert JobOk(effect, s, id);
      if id == step.id {
        assert LandedFrom(effect, s', |s.log|, s.jobs[id].pc.answer);
      } else {
        AnswerStays(effect, s, s', id);
        if Busy(s.jobs[id].pc) && s.jobs[id].key == s.jobs[step.id].key {
          L.OneInside(s.lock, f, id, step.id);
        }
      }
    }
  }

  /** The call inside comes after every call of its key that has landed. */
  lemma LandsAfter<Q, V, R>(effect: Effect<Q, V, R>, s: State<Q, V, R>, f: L.Fifo, id: nat, i: nat)
    requires Inv(effect, s, f) && id in s.jobs && Busy(s.jobs[id].pc) && i < |s.log| && s.log[i].key == s.jobs[id].key
    ensures Before(L.LineOf(f, s.log[i].key).arrived, s.log[i].id, id)
  {
    assert EntryOk(effect, s, i) && JobOk(effect, s, s.log[i].id) && JobOk(effect, s, id);
    var m := L.PositionOf(s.lock, f, s.log[i].id);
    var n := L.PositionOf(s.lock, f, id);
    assert m < n;
  }

  lemma LandedOrder<Q, V, R>(effect: Effect<Q, V, R>, s: State<Q, V, R>, f: L.Fifo, step: Step<Q, V>)
    requires Inv(effect, s, f) && Lands(s, step)
    ensures InOrder(Apply(effect, s, step), f)
  {
    var s' := Apply(effect, s, step);
    assert JobOk(effect, s, step.id);
    forall i, j | 0 <= i < j < |s'.log| && s'.log[i].key == s'.log[j].key
      ensures Before(L.LineOf(f, s'.log[i].key).arrived, s'.log[i].id, s'.log[j].id)
    {
      if j == |s.log| {
        LandsAfter(effect, s, f, step.id, i);
      } else {
        assert s.log[i] == s'.log[i] && s.log[j] == s'.log[j];
      }
    }
  }

  lemma LandedKeeps<Q, V, R>(effect: Effect<Q, V, R>, s: State<Q, V, R>, f: L.Fifo, step: Step<Q, V>)
    requires Inv(effect, s, f) && Lands(s, step)
    ensures Inv(effect, Apply(effect, s, step), f)
  {
    var s' := Apply(effect, s, step);
    assert JobOk(effect, s, step.id);
    LandedLast(effect, s, f, step);
    LandedStore(effect, s, f, step);
    LandedJobs(effect, s, f, step);
    LandedOrder(effect, s, f, step);
    forall i: nat | i < |s'.log| ensures EntryOk(effect, s', i) {
      if i < |s.log| {
        assert EntryOk(effect, s, i);
        assert s.log[i].id != step.id;
        EntryStays(effect, s, s', i);
      }
    }
  }

  lemma {:induction false} RunKeeps<Q, V, R>(effect: Effect<Q, V, R>, s: State<Q, V, R>, f: L.Fifo, steps: seq<Step<Q, V>>)
    returns (f': L.Fifo)
    requires Inv(effect, s, f) && Runnable(effect, s, steps)
    ensures Inv(effect, Run(effect, s, steps), f')
    decreases |steps|
  {
    f' := f;
    if steps != [] {
      var step := steps[0];
      if LockStep(step) {
        f' := LockStepKeeps(effect, s, f, step);
      } else if step.Put? {
        PutKeeps(effect, s, f, step);
      } else if SilentStep(step) {
        SilentKeeps(effect, s, f, step);
      } else {
        LandedKeeps(effect, s, f, step);
      }
      f' := RunKeeps(effect, Apply(effect, s, step), f', steps[1..]);
    }
  }
}
