/** What the per-key mutex buys: the calls of a key are serial, and one-time prekeys are used once. */
module RatchetAndPrekeys {
  import opened Wrappers
  import L = AsyncLock
  import opened GuardedStore

  lemma Reached<Q, V, R>(effect: Effect<Q, V, R>, steps: seq<Step<Q, V>>) returns (f: L.Fifo)
    requires Runnable(effect, Empty<Q, V, R>(), steps)
    ensures Inv(effect, Run(effect, Empty<Q, V, R>(), steps), f)
  {
    f := RunKeeps(effect, Empty<Q, V, R>(), L.EmptyFifo, steps);
  }

  /**
   In every interleaving the stored values are what the landed calls produce
   when run one after the other; a call that returned is one of them, and
   answered from exactly what the calls landed before it left behind.
   */
  lemma CallsAreSerial<Q, V, R>(effect: Effect<Q, V, R>, steps: seq<Step<Q, V>>, key: string, id: nat)
    requires Runnable(effect, Empty<Q, V, R>(), steps)
    ensures var s := Run(effect, Empty<Q, V, R>(), steps);
            && L.Lookup(s.stored, key) == Replayed(effect, L.Lookup(s.issued, key), s.log, key)
            && (id in s.jobs && s.jobs[id].pc.Returned? ==>
                  exists i: nat :: i < |s.log| && s.log[i] == Entry(id, s.jobs[id].key, s.jobs[id].q) && LandedFrom(effect, s, i, s.jobs[id].pc.answer))
  {
    var f := Reached(effect, steps);
    var s := Run(effect, Empty<Q, V, R>(), steps);
    assert StoreOk(effect, s);
    if id in s.jobs && s.jobs[id].pc.Returned? {
      assert AnswerOk(effect, s, id);
      var i: nat :| i < |s.log| && s.log[i].id == id && LandedFrom(effect, s, i, s.jobs[id].pc.answer);
      assert EntryOk(effect, s, i);
    }
  }

  /** Calls of one key land in the order in which they arrived, each at most once, and only if they did not throw. */
  lemma CallsLandInOrder<Q, V, R>(effect: Effect<Q, V, R>, steps: seq<Step<Q, V>>) returns (f: L.Fifo)
    requires Runnable(effect, Empty<Q, V, R>(), steps)
    ensures var s := Run(effect, Empty<Q, V, R>(), steps);
            && L.Implements(s.lock, f) && InOrder(s, f)
            && (forall i, j :: 0 <= i < j < |s.log| ==> s.log[i].id != s.log[j].id)
            && (forall i: nat :: i < |s.log| ==>
                                   FoundAt(effect, s, i).Some? && effect(s.log[i].q, FoundAt(effect, s, i).value).Some?)
  {
    f := Reached(effect, steps);
    var s := Run(effect, Empty<Q, V, R>(), steps);
    forall i: nat | i < |s.log| ensures FoundAt(effect, s, i).Some? && effect(s.log[i].q, FoundAt(effect, s, i).value).Some? {
      assert EntryOk(effect, s, i);
    }
    forall i, j | 0 <= i < j < |s.log| ensures s.log[i].id != s.log[j].id {
      assert EntryOk(effect, s, i) && EntryOk(effect, s, j);
      if s.log[i].key == s.log[j].key {
        assert Before(L.LineOf(f, s.log[i].key).arrived, s.log[i].id, s.log[j].id);
        assert L.LineOk(s.lock.calls, s.log[i].key, L.LineOf(f, s.log[i].key));
      }
    }
  }

  /** A key that was never issued has no value. */
  lemma {:induction false} OnlyIssuedAreFound<Q, V, R>(effect: Effect<Q, V, R>, log: seq<Entry<Q>>, key: string)
    ensures Replayed(effect, None, log, key) == None
    decreases |log|
  {
    if log != [] {
      OnlyIssuedAreFound(effect, log[..|log| - 1], key);
    }
  }

  // ----- A call that nothing disturbs -----

  /** Arrival, start, read, the second look of an update, and the write, all of which succeed. */
  function CallOn<Q, V>(id: nat, key: string, q: Q, update: bool): seq<Step<Q, V>> {
    [Call(id, key, q), Begin(id), Load(id, true)] + WriteOn(id, update)
  }

  function WriteOn<Q, V>(id: nat, update: bool): seq<Step<Q, V>> {
    if update then [Recheck(id, true)] + ([Write(id, true, true)] + []) else [Write(id, true, true)] + []
  }

  lemma Loads<Q, V, R>(effect: Effect<Q, V, R>, s: State<Q, V, R>, id: nat, key: string, q: Q)
    requires id !in s.jobs && id !in s.lock.calls && L.Lookup(s.lock.slots, key).None? && key in s.stored && effect(q, s.stored[key]).Some?
    ensures var (next, answer) := effect(q, s.stored[key]).value;
            var steps: seq<Step<Q, V>> := [Call(id, key, q)] + ([Begin(id)] + ([Load(id, true)] + []));
            && Runnable(effect, s, steps)
            && var s' := Run(effect, s, steps);
               id in s'.jobs && s'.jobs[id] == Job(key, q, Loaded(s.stored[key], next, answer)) && s'.stored == s.stored
  {
    var s1 := Apply(effect, s, Call(id, key, q));
    var s2 := Apply(effect, s1, Begin(id));
    RunCons(effect, s2, Load(id, true), []);
    RunCons(effect, s1, Begin(id), [Load(id, true)] + []);
    RunCons(effect, s, Call(id, key, q), [Begin(id)] + ([Load(id, true)] + []));
  }

  lemma RunCons<Q, V, R>(effect: Effect<Q, V, R>, s: State<Q, V, R>, step: Step<Q, V>, rest: seq<Step<Q, V>>)
    requires Enabled(s, step) && Runnable(effect, Apply(effect, s, step), rest)
    ensures Runnable(effect, s, [step] + rest) && Run(effect, s, [step] + rest) == Run(effect, Apply(effect, s, step), rest)
  {
    assert ([step] + rest)[1..] == rest;
  }

  lemma Writes<Q, V, R>(effect: Effect<Q, V, R>, s: State<Q, V, R>, id: nat)
    requires id in s.jobs && s.jobs[id].pc.Loaded? && s.jobs[id].key in s.stored
    ensures var pc := s.jobs[id].pc;
            var steps: seq<Step<Q, V>> := WriteOn(id, pc.next.Some?);
            && Runnable(effect, s, steps)
            && var s' := Run(effect, s, steps);
               id in s'.jobs && s'.jobs[id].pc == Returned(pc.answer) && L.Lookup(s'.stored, s.jobs[id].key) == pc.next
  {
    var pc := s.jobs[id].pc;
    if pc.next.Some? {
      RunCons(effect, Apply(effect, s, Recheck(id, true)), Write(id, true, true), []);
      RunCons(effect, s, Recheck(id, true), [Write(id, true, true)] + []);
    } else {
      RunCons(effect, s, Write(id, true, true), []);
    }
  }

  /** It returns what its body computes from the stored value, and leaves the value that its body gives. */
  lemma UndisturbedCall<Q, V, R>(effect: Effect<Q, V, R>, s: State<Q, V, R>, id: nat, key: string, q: Q)
    requires id !in s.jobs && id !in s.lock.calls && L.Lookup(s.lock.slots, key).None? && key in s.stored && effect(q, s.stored[key]).Some?
    ensures var (next, answer) := effect(q, s.stored[key]).value;
            && Runnable(effect, s, CallOn(id, key, q, next.Some?))
            && var s' := Run(effect, s, CallOn(id, key, q, next.Some?));
               id in s'.jobs && s'.jobs[id].pc == Returned(answer) && L.Lookup(s'.stored, key) == next
  {
    var next := effect(q, s.stored[key]).value.0;
    var front: seq<Step<Q, V>> := [Call(id, key, q)] + ([Begin(id)] + ([Load(id, true)] + []));
    var back: seq<Step<Q, V>> := WriteOn(id, next.Some?);
    Loads(effect, s, id, key, q);
    Writes(effect, Run(effect, s, front), id);
    RunOn(effect, s, front, back);
    assert CallOn(id, key, q, next.Some?) == front + back;
  }

  lemma {:induction false} RunOn<Q, V, R>(effect: Effect<Q, V, R>, s: State<Q, V, R>, a: seq<Step<Q, V>>, b: seq<Step<Q, V>>)
    requires Runnable(effect, s, a) && Runnable(effect, Run(effect, s, a), b)
    ensures Runnable(effect, s, a + b) && Run(effect, s, a + b) == Run(effect, Run(effect, s, a), b)
    decreases |a|
  {
    if a == [] {
      assert a + b == b;
    } else {
      assert (a + b)[1..] == a[1..] + b;
      RunOn(effect, Apply(effect, s, a[0]), a[1..], b);
    }
  }

  // ----- One-time prekeys -----

  /** consumeOneTimePrekey reads the record, deletes it and returns it. */
  function Consume<V>(q: (), v: V): Option<(Option<V>, V)> {
    Some((None, v))
  }

  lemma {:induction false} ConsumedIsGone<V>(start: Option<V>, log: seq<Entry<()>>, i: nat, key: string)
    requires i < |log| && log[i].key == key
    ensures Replayed(Consume<V>, start, log, key) == None
    decreases |log|
  {
    if i < |log| - 1 {
      ConsumedIsGone(start, log[..|log| - 1], i, key);
    }
  }

  /** A one-time prekey is returned to at most one caller, who gets the record that was stored; after that it is gone. */
  lemma PrekeysAreUsedOnce<V>(steps: seq<Step<(), V>>, a: nat, b: nat)
    requires Runnable(Consume<V>, Empty<(), V, V>(), steps)
    requires var s := Run(Consume<V>, Empty<(), V, V>(), steps);
             && a in s.jobs && b in s.jobs && s.jobs[a].key == s.jobs[b].key
             && s.jobs[a].pc.Returned? && s.jobs[b].pc.Returned?
    ensures var s := Run(Consume<V>, Empty<(), V, V>(), steps);
            && a == b && s.jobs[a].key in s.issued && s.jobs[a].pc.answer == s.issued[s.jobs[a].key]
            && s.jobs[a].key !in s.stored
  {
    var s := Run(Consume<V>, Empty<(), V, V>(), steps);
    var key := s.jobs[a].key;
    CallsAreSerial(Consume<V>, steps, key, a);
    CallsAreSerial(Consume<V>, steps, key, b);
    var i: nat :| i < |s.log| && s.log[i] == Entry(a, key, s.jobs[a].q) && LandedFrom(Consume<V>, s, i, s.jobs[a].pc.answer);
    var j: nat :| j < |s.log| && s.log[j] == Entry(b, key, s.jobs[b].q) && LandedFrom(Consume<V>, s, j, s.jobs[b].pc.answer);
    ConsumedIsGone(L.Lookup(s.issued, key), s.log, i, key);
    NothingBefore(s, i, key);
    NothingBefore(s, j, key);
    if i < j {
      ConsumedIsGone(L.Lookup(s.issued, key), s.log[..j], i, key);
    } else if j < i {
      ConsumedIsGone(L.Lookup(s.issued, key), s.log[..i], j, key);
    }
  }

  /** Whoever consumed the prekey found it as it was issued. */
  lemma NothingBefore<V>(s: State<(), V, V>, i: nat, key: string)
    requires i < |s.log| && s.log[i].key == key && FoundAt(Consume<V>, s, i).Some?
    ensures FoundAt(Consume<V>, s, i) == L.Lookup(s.issued, key)
  {
    var before := s.log[..i];
    forall k: nat | k < i ensures before[k].key != key {
      if before[k].key == key {
        ConsumedIsGone(L.Lookup(s.issued, key), before, k, key);
      }
    }
    Untouched(Consume<V>, L.Lookup(s.issued, key), before, key);
  }

  /** A prekey that is there, and that nobody else asks for, is returned and gone. */
  lemma PrekeysCanBeUsed<V>(s: State<(), V, V>, id: nat, key: string)
    requires id !in s.jobs && id !in s.lock.calls && L.Lookup(s.lock.slots, key).None? && key in s.stored
    ensures Runnable(Consume<V>, s, CallOn(id, key, (), false))
    ensures var s' := Run(Consume<V>, s, CallOn(id, key, (), false));
            id in s'.jobs && s'.jobs[id].pc == Returned(s.stored[key]) && key !in s'.stored
  {
    UndisturbedCall(Consume<V>, s, id, key, ());
  }
}
