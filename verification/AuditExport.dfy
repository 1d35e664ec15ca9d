/** Querying and exporting the audit log. */
module AuditExport {
  import opened Wrappers
  import opened AuditChain

  // ----- Stable sorting by time -----

  function Key(e: Event, ascending: bool): int {
    if ascending then e.occurredAtUnix else -e.occurredAtUnix
  }

  function InsertBefore(e: Event, sorted: seq<Event>, ascending: bool): seq<Event> {
    if sorted == [] || Key(e, ascending) <= Key(sorted[0], ascending) then [e] + sorted
    else [sorted[0]] + InsertBefore(e, sorted[1..], ascending)
  }

  function StableSort(events: seq<Event>, ascending: bool): seq<Event> {
    if events == [] then [] else InsertBefore(events[0], StableSort(events[1..], ascending), ascending)
  }

  ghost predicate InOrder(events: seq<Event>, ascending: bool) {
    forall i, j :: 0 <= i < j < |events| ==> Key(events[i], ascending) <= Key(events[j], ascending)
  }

  /** The events of one second, in the order of the list. */
  function AtTime(events: seq<Event>, t: int): seq<Event> {
    if events == [] then []
    else (if events[0].occurredAtUnix == t then [events[0]] else []) + AtTime(events[1..], t)
  }

  lemma {:induction false} InsertKeepsOrder(e: Event, sorted: seq<Event>, ascending: bool)
    requires InOrder(sorted, ascending)
    ensures InOrder(InsertBefore(e, sorted, ascending), ascending)
    ensures forall x :: x in InsertBefore(e, sorted, ascending) <==> x == e || x in sorted
  {
    if sorted != [] && Key(e, ascending) > Key(sorted[0], ascending) {
      var rest := InsertBefore(e, sorted[1..], ascending);
      InsertKeepsOrder(e, sorted[1..], ascending);
      assert forall x :: x in sorted <==> x == sorted[0] || x in sorted[1..];
      forall j | 0 <= j < |rest| ensures Key(sorted[0], ascending) <= Key(rest[j], ascending) {
        assert rest[j] in rest;
      }
    }
  }

  lemma {:induction false} InsertIsStable(e: Event, sorted: seq<Event>, ascending: bool, t: int)
    ensures AtTime(InsertBefore(e, sorted, ascending), t) == (if e.occurredAtUnix == t then [e] else []) + AtTime(sorted, t)
  {
    if sorted == [] || Key(e, ascending) <= Key(sorted[0], ascending) {
      assert ([e] + sorted)[1..] == sorted;
    } else {
      var rest := InsertBefore(e, sorted[1..], ascending);
      InsertIsStable(e, sorted[1..], ascending, t);
      assert ([sorted[0]] + rest)[1..] == rest;
    }
  }

  /** The sort is in order, keeps the events, and keeps their order within each second. */
  lemma {:induction false} SortIsStable(events: seq<Event>, ascending: bool, t: int)
    ensures InOrder(StableSort(events, ascending), ascending)
    ensures forall x :: x in StableSort(events, ascending) <==> x in events
    ensures AtTime(StableSort(events, ascending), t) == AtTime(events, t)
  {
    if events != [] {
      SortIsStable(events[1..], ascending, t);
      InsertKeepsOrder(events[0], StableSort(events[1..], ascending), ascending);
      InsertIsStable(events[0], StableSort(events[1..], ascending), ascending, t);
      assert forall x :: x in events <==> x == events[0] || x in events[1..];
    }
  }

  lemma {:induction false} NonemptyAtTime(events: seq<Event>, i: nat)
    requires i < |events|
    ensures AtTime(events, events[i].occurredAtUnix) != []
  {
    if i > 0 {
      NonemptyAtTime(events[1..], i - 1);
    }
  }

  lemma {:induction false} FoundAtTime(events: seq<Event>, t: int) returns (i: nat)
    requires AtTime(events, t) != []
    ensures i < |events| && events[i].occurredAtUnix == t
  {
    if events[0].occurredAtUnix == t {
      i := 0;
    } else {
      i := FoundAtTime(events[1..], t);
      i := i + 1;
    }
  }

  /** A list in order is determined by the order within each second: any stable sort gives the same list. */
  lemma {:induction false} StableSortIsUnique(a: seq<Event>, b: seq<Event>, ascending: bool)
    requires InOrder(a, ascending) && InOrder(b, ascending)
    requires forall t :: AtTime(a, t) == AtTime(b, t)
    ensures a == b
  {
    if a == [] {
      assert forall t :: AtTime(b, t) == [];
    } else {
      NonemptyAtTime(a, 0);
      var j := FoundAtTime(b, a[0].occurredAtUnix);
      NonemptyAtTime(b, 0);
      var i := FoundAtTime(a, b[0].occurredAtUnix);
      assert Key(b[0], ascending) <= Key(b[j], ascending) && Key(a[0], ascending) <= Key(a[i], ascending);
      assert a[0] == AtTime(a, a[0].occurredAtUnix)[0] && b[0] == AtTime(b, a[0].occurredAtUnix)[0];
      forall t ensures AtTime(a[1..], t) == AtTime(b[1..], t) {
        assert AtTime(a, t) == AtTime(b, t);
        assert AtTime(a, t)[if a[0].occurredAtUnix == t then 1 else 0..] == AtTime(a[1..], t);
        assert AtTime(b, t)[if b[0].occurredAtUnix == t then 1 else 0..] == AtTime(b[1..], t);
      }
      StableSortIsUnique(a[1..], b[1..], ascending);
    }
  }

  /** Sorting newest first and then oldest first is sorting oldest first. */
  lemma SortingBack(events: seq<Event>)
    ensures StableSort(StableSort(events, false), true) == StableSort(events, true)
  {
    var down := StableSort(events, false);
    SortIsStable(down, true, 0);
    SortIsStable(events, true, 0);
    forall t ensures AtTime(StableSort(down, true), t) == AtTime(StableSort(events, true), t) {
      SortIsStable(down, true, t);
      SortIsStable(events, false, t);
      SortIsStable(events, true, t);
    }
    StableSortIsUnique(StableSort(down, true), StableSort(events, true), true);
  }

  // ----- Querying -----

  datatype Filter = Filter(subject: string, resourceType: string, resourceId: string, action: string, since: int, until: int)

  predicate Matches(f: Filter, e: Event) {
    && (f.subject == "" || e.actor == f.subject)
    && (f.resourceType == "" || e.resource.resourceType == f.resourceType)
    && (f.resourceId == "" || e.resource.resourceId == f.resourceId)
    && (f.action == "" || e.action == f.action)
    && (f.since == 0 || e.occurredAtUnix >= f.since)
    && (f.until == 0 || e.occurredAtUnix <= f.until)
  }

  function Matching(events: seq<Event>, f: Filter): seq<Event> {
    if events == [] then []
    else Matching(events[..|events| - 1], f) + if Matches(f, events[|events| - 1]) then [events[|events| - 1]] else []
  }

  lemma {:induction false} MatchingMembers(events: seq<Event>, f: Filter)
    ensures forall e :: e in Matching(events, f) <==> e in events && Matches(f, e)
  {
    if events != [] {
      var init, last := events[..|events| - 1], events[|events| - 1];
      MatchingMembers(init, f);
      assert forall e :: e in events <==> e in init || e == last;
    }
  }

  const MAX_METADATA_KEYS := 32
  const MAX_METADATA_KEY_LENGTH := 128
  const MAX_METADATA_VALUE_LENGTH := 2048

  predicate MetadataFits(metadata: Metadata) {
    metadata.Some? ==>
      && |metadata.value| <= MAX_METADATA_KEYS
      && forall k :: k in metadata.value ==> |k| <= MAX_METADATA_KEY_LENGTH && |metadata.value[k]| <= MAX_METADATA_VALUE_LENGTH
  }

  datatype Error = InvalidEvent | MetadataTooLarge | MissingCaller | CheckFailed | PermissionDenied

  /** `checked` is what the injected permission checker answers, None when it fails. */
  function Visible(caller: string, subject: string, checked: Option<bool>): Option<Error> {
    if caller == "" then Some(MissingCaller)
    else if subject == caller then None
    else match checked
         case None => Some(CheckFailed)
         case Some(allowed) => if allowed then None else Some(PermissionDenied)
  }

  /** The export of a subject's trail: its events, oldest first, in log order within a second. */
  function Trail(events: seq<Event>, subject: string): seq<Event> {
    StableSort(Matching(events, Filter(subject, "", "", "", 0, 0)), true)
  }

  class Service {
    const store: InMemoryStore

    constructor (store: InMemoryStore)
      ensures this.store == store
    {
      this.store := store;
    }

    method Emit(actor: string, action: string, resource: ResourceRef, rule: string, metadata: Metadata, now: int)
      returns (r: Result<string, Error>)
      requires store.Valid()
      modifies store
      ensures store.Valid()
      ensures r.Ok? <==> actor != "" && action != "" &&
                         (metadata.Some? ==>
                            && |metadata.value| <= 32
                            && forall k :: k in metadata.value ==> |k| <= 128 && |metadata.value[k]| <= 2048)
      ensures r.Err? ==> r.error == if actor == "" || action == "" then InvalidEvent else MetadataTooLarge
      ensures store.events == if r.Err? then old(store.events)
                              else old(store.events) + [Linked(store.hash, old(store.events), Event("", actor, action, resource, rule, metadata, now, ""))]
      ensures r.Ok? ==> store.events != [] && r.value == LastId(store.events)
                        && store.events[|store.events| - 1].(eventId := "", prevHash := "") ==
                           Event("", actor, action, resource, rule, metadata, now, "")
    {
      if actor == "" || action == "" {
        return Err(InvalidEvent);
      }
      if !MetadataFits(metadata) {
        return Err(MetadataTooLarge);
      }
      var stored := store.Append(Event("", actor, action, resource, rule, metadata, now, ""));
      return Ok(stored.eventId);
    }

    method QueryStore(f: Filter) returns (out: seq<Event>)
      ensures out == StableSort(Matching(store.events, f), false)
      ensures forall e :: e in out <==>
                && e in store.events
                && (f.subject == "" || e.actor == f.subject) && (f.action == "" || e.action == f.action)
                && (f.resourceType == "" || e.resource.resourceType == f.resourceType)
                && (f.resourceId == "" || e.resource.resourceId == f.resourceId)
                && (f.since == 0 || f.since <= e.occurredAtUnix) && (f.until == 0 || e.occurredAtUnix <= f.until)
    {
      out := [];
      for i := 0 to |store.events|
        invariant out == Matching(store.events[..i], f)
      {
        var e := store.events[i];
        assert store.events[..i + 1][..i] == store.events[..i];
        if f.subject != "" && e.actor != f.subject { continue; }
        if f.resourceType != "" && e.resource.resourceType != f.resourceType { continue; }
        if f.resourceId != "" && e.resource.resourceId != f.resourceId { continue; }
        if f.action != "" && e.action != f.action { continue; }
        if f.since != 0 && e.occurredAtUnix < f.since { continue; }
        if f.until != 0 && e.occurredAtUnix > f.until { continue; }
        out := out + [e];
      }
      assert store.events[..|store.events|] == store.events;
      MatchingMembers(store.events, f);
      SortIsStable(out, false, 0);
      out := StableSort(out, false);
    }

    method Query(caller: string, f: Filter, checked: Option<bool>) returns (r: Result<seq<Event>, Error>)
      ensures r.Ok? <==> caller != "" && (f.subject == "" || f.subject == caller || checked == Some(true))
      ensures var subject := if f.subject == "" then caller else f.subject;
              match Visible(caller, subject, checked)
              case Some(error) => r == Err(error)
              case None => r == Ok(StableSort(Matching(store.events, f.(subject := subject)), false))
    {
      if caller == "" {
        return Err(MissingCaller);
      }
      var mine := if f.subject == "" then f.(subject := caller) else f;
      if mine.subject != caller {
        if checked.None? {
          return Err(CheckFailed);
        }
        if !checked.value {
          return Err(PermissionDenied);
        }
      }
      var out := QueryStore(mine);
      return Ok(out);
    }

    method ExportAuditTrail(caller: string, subject: string, checked: Option<bool>) returns (r: Result<seq<Event>, Error>)
      ensures r.Ok? <==> caller != "" && (subject == caller || checked == Some(true))
      ensures match Visible(caller, subject, checked)
              case Some(error) => r == Err(error)
              case None => r == Ok(Trail(store.events, subject))
    {
      if caller == "" {
        return Err(MissingCaller);
      }
      if subject != caller {
        if checked.None? {
          return Err(CheckFailed);
        }
        if !checked.value {
          return Err(PermissionDenied);
        }
      }
      var events := QueryStore(Filter(subject, "", "", "", 0, 0));
      SortingBack(Matching(store.events, Filter(subject, "", "", "", 0, 0)));
      events := StableSort(events, true);
      var records := [];
      for i := 0 to |events|
        invariant records == events[..i]
      {
        records := records + [events[i]];
      }
      assert events[..|events|] == events;
      return Ok(records);
    }
  }

  // ----- When a trail passes its own check -----

  /** The event is in the subject's trail; an empty subject asks for everybody's. */
  predicate Of(e: Event, subject: string) {
    subject == "" || e.actor == subject
  }

  /** The subject's events are the beginning of the log, none comes later, and the clock never went back in them. */
  ghost predicate StartsTheLog(events: seq<Event>, subject: string) {
    exists n: nat :: n <= |events| && StartsAt(events, subject, n)
  }

  ghost predicate StartsAt(events: seq<Event>, subject: string, n: nat)
    requires n <= |events|
  {
    && (forall i :: 0 <= i < n ==> Of(events[i], subject))
    && (forall i :: n <= i < |events| ==> !Of(events[i], subject))
    && InOrder(events[..n], true)
  }

  lemma {:induction false} InsertLength(e: Event, sorted: seq<Event>, ascending: bool)
    ensures |InsertBefore(e, sorted, ascending)| == |sorted| + 1
  {
    if sorted != [] && Key(e, ascending) > Key(sorted[0], ascending) {
      InsertLength(e, sorted[1..], ascending);
    }
  }

  lemma {:induction false} SortLength(events: seq<Event>, ascending: bool)
    ensures |StableSort(events, ascending)| == |events|
  {
    if events != [] {
      SortLength(events[1..], ascending);
      InsertLength(events[0], StableSort(events[1..], ascending), ascending);
    }
  }

  lemma {:induction false} SortedAlready(events: seq<Event>, ascending: bool)
    requires InOrder(events, ascending)
    ensures StableSort(events, ascending) == events
  {
    if events != [] {
      SortedAlready(events[1..], ascending);
      assert events == [events[0]] + events[1..];
    }
  }

  lemma {:induction false} MatchingSplits(events: seq<Event>, n: nat, f: Filter)
    requires n <= |events|
    ensures |Matching(events, f)| == |Matching(events[..n], f)| + |Matching(events[n..], f)|
    ensures Matching(events[n..], f) == [] ==> Matching(events, f) == Matching(events[..n], f)
    decreases |events|
  {
    if n < |events| {
      var m := |events| - 1;
      MatchingSplits(events[..m], n, f);
      assert events[..m][..n] == events[..n] && events[..m][n..] == events[n..][..m - n];
    } else {
      assert events[..n] == events && events[n..] == [];
    }
  }

  lemma {:induction false} AllMatch(events: seq<Event>, f: Filter)
    requires forall e :: e in events ==> Matches(f, e)
    ensures Matching(events, f) == events
  {
    if events != [] {
      AllMatch(events[..|events| - 1], f);
    }
  }

  function TrailFilter(subject: string): Filter {
    Filter(subject, "", "", "", 0, 0)
  }

  lemma {:induction false} NoneMatch(events: seq<Event>, f: Filter)
    ensures Matching(events, f) == [] <==> forall i :: 0 <= i < |events| ==> !Matches(f, events[i])
  {
    if events != [] {
      NoneMatch(events[..|events| - 1], f);
    }
  }

  lemma StartIsTrail(events: seq<Event>, subject: string, n: nat)
    requires n <= |events| && StartsAt(events, subject, n)
    ensures Trail(events, subject) == events[..n]
  {
    NoneMatch(events[n..], TrailFilter(subject));
    MatchingSplits(events, n, TrailFilter(subject));
    AllMatch(events[..n], TrailFilter(subject));
    SortedAlready(events[..n], true);
  }

  /** A first stretch that holds as many matching events as the whole list leaves none behind it. */
  lemma NothingLeft(events: seq<Event>, n: nat, f: Filter)
    requires n <= |events| && |Matching(events, f)| == n && forall e :: e in events[..n] ==> Matches(f, e)
    ensures forall i :: n <= i < |events| ==> !Matches(f, events[i])
  {
    AllMatch(events[..n], f);
    MatchingSplits(events, n, f);
    NoneMatch(events[n..], f);
    forall i | n <= i < |events| ensures !Matches(f, events[i]) {
      assert events[n..][i - n] == events[i];
    }
  }

  lemma TrailMembers(events: seq<Event>, subject: string)
    ensures forall e :: e in Trail(events, subject) <==> e in events && Of(e, subject)
    ensures |Trail(events, subject)| == |Matching(events, TrailFilter(subject))|
    ensures InOrder(Trail(events, subject), true)
  {
    MatchingMembers(events, TrailFilter(subject));
    SortIsStable(Matching(events, TrailFilter(subject)), true, 0);
    SortLength(Matching(events, TrailFilter(subject)), true);
  }

  lemma PrefixTrailStarts(events: seq<Event>, subject: string)
    requires Trail(events, subject) <= events
    ensures StartsTheLog(events, subject)
  {
    var n := |Trail(events, subject)|;
    assert events[..n] == Trail(events, subject);
    TrailMembers(events, subject);
    forall i | 0 <= i < n ensures Of(events[i], subject) {
      assert events[..n][i] in events[..n];
    }
    NothingLeft(events, n, TrailFilter(subject));
    assert StartsAt(events, subject, n);
  }

  /**
   What an exported trail is: exactly the subject's events, in ascending time
   and in log order within a second.  Checked as its own note prescribes, it
   passes exactly when it is the beginning of the whole log, which is to say when
   the subject's events come first in the log, in order of time, and none later.
   */
  lemma TrailPassesIffPrefix(hash: Hash, events: seq<Event>, subject: string, t: int)
    requires Ideal(hash) && Chain(hash, events)
    ensures var trail, mine := Trail(events, subject), Matching(events, TrailFilter(subject));
            && (forall e :: e in trail <==> e in events && Of(e, subject))
            && InOrder(trail, true) && AtTime(trail, t) == AtTime(mine, t)
    ensures Chain(hash, Trail(events, subject)) <==> Trail(events, subject) <= events
    ensures Chain(hash, Trail(events, subject)) <==> StartsTheLog(events, subject)
  {
    var mine := Matching(events, TrailFilter(subject));
    MatchingMembers(events, TrailFilter(subject));
    SortIsStable(mine, true, t);
    DrawnListsPassIffPrefix(hash, events, Trail(events, subject));
    if Trail(events, subject) <= events {
      PrefixTrailStarts(events, subject);
    } else if StartsTheLog(events, subject) {
      var n: nat :| n <= |events| && StartsAt(events, subject, n);
      StartIsTrail(events, subject, n);
    }
  }

  function Action(actor: string, now: int): Event {
    Event("", actor, "login", ResourceRef("identity", actor), "rule", None, now, "")
  }

  /** Two people act, one after the other: the log is a chain, and the trail of the second one fails its own check. */
  lemma SecondActorsTrailFails(hash: Hash)
    requires Ideal(hash)
    ensures var first := Linked(hash, [], Action("ann", 1));
            var second := Linked(hash, [first], Action("bob", 2));
            && Chain(hash, [first, second])
            && Trail([first, second], "bob") == [second] && !Chain(hash, Trail([first, second], "bob"))
  {
    var first := Linked(hash, [], Action("ann", 1));
    var second := Linked(hash, [first], Action("bob", 2));
    var log := [first, second];
    assert log[..1] == [first] && log[..1][..0] == [];
    assert Matching([first], TrailFilter("bob")) == [];
    assert Matching(log, TrailFilter("bob")) == [second];
    assert LinkOk(hash, log, 0) && LinkOk(hash, log, 1);
    assert [second][1..] == [] && StableSort([second], true) == [second];
    assert !LinkOk(hash, [second], 0);
  }
}
