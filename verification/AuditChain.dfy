/**
 The audit log: append-only events, each named by a hash of its content and of
 the event before it.

 The hash is a parameter, a function of the hashed fields that never collides
 and never gives the empty string.
 */
module AuditChain {
  import opened Wrappers

  datatype ResourceRef = ResourceRef(resourceType: string, resourceId: string)

  /** Absent metadata and empty metadata are hashed differently. */
  type Metadata = Option<map<string, string>>

  datatype Event = Event(eventId: string, actor: string, action: string, resource: ResourceRef, ruleReference: string,
                         metadata: Metadata, occurredAtUnix: int, prevHash: string)

  /** Everything but the event id. */
  datatype Fields = Fields(actor: string, action: string, resource: ResourceRef, ruleReference: string,
                           metadata: Metadata, occurredAtUnix: int, prevHash: string)

  type Hash = Fields -> string

  function FieldsOf(e: Event): Fields {
    Fields(e.actor, e.action, e.resource, e.ruleReference, e.metadata, e.occurredAtUnix, e.prevHash)
  }

  ghost predicate Ideal(hash: Hash) {
    (forall f :: hash(f) != "") && (forall f, g :: hash(f) == hash(g) ==> f == g)
  }

  /** Event `i` of the list is what it claims to be and follows the one before it. */
  predicate LinkOk(hash: Hash, events: seq<Event>, i: nat)
    requires i < |events|
  {
    && events[i].prevHash == (if i == 0 then "" else events[i - 1].eventId)
    && events[i].eventId == hash(FieldsOf(events[i]))
  }

  ghost predicate Chain(hash: Hash, events: seq<Event>) {
    forall i: nat :: i < |events| ==> LinkOk(hash, events, i)
  }

  /** Checks a list of events; the answer is the index of the first broken link. */
  method VerifyIntegrity(hash: Hash, events: seq<Event>) returns (broken: Option<nat>)
    ensures broken.None? <==> Chain(hash, events)
    ensures broken.Some? ==>
              broken.value < |events| && !LinkOk(hash, events, broken.value) && Chain(hash, events[..broken.value])
  {
    var prev := "";
    for i := 0 to |events|
      invariant prev == if i == 0 then "" else events[i - 1].eventId
      invariant forall k: nat :: k < i ==> LinkOk(hash, events, k)
    {
      var e := events[i];
      if e.prevHash != prev || hash(FieldsOf(e)) != e.eventId {
        assert !LinkOk(hash, events, i);
        assert forall k: nat :: k < i ==> LinkOk(hash, events, k) ==> LinkOk(hash, events[..i], k);
        return Some(i);
      }
      prev := e.eventId;
    }
    return None;
  }

  /** Equal ids lead back, link by link, to the start of the chain. */
  lemma {:induction false} SameIdSamePlace(hash: Hash, events: seq<Event>, i: nat, j: nat)
    requires Ideal(hash) && Chain(hash, events) && i < |events| && j < |events| && events[i].eventId == events[j].eventId
    ensures i == j
    decreases i
  {
    assert LinkOk(hash, events, i) && LinkOk(hash, events, j);
    assert FieldsOf(events[i]).prevHash == FieldsOf(events[j]).prevHash;
    if i > 0 && j > 0 {
      SameIdSamePlace(hash, events, i - 1, j - 1);
    } else {
      assert i > 0 ==> LinkOk(hash, events, i - 1);
      assert j > 0 ==> LinkOk(hash, events, j - 1);
    }
  }

  /** A verified list drawn from a chain's events goes through the chain from its start. */
  lemma {:induction false} DrawnFollows(hash: Hash, chain: seq<Event>, drawn: seq<Event>, i: nat)
    requires Ideal(hash) && Chain(hash, chain) && Chain(hash, drawn) && i < |drawn|
    requires forall e :: e in drawn ==> e in chain
    ensures i < |chain| && drawn[i] == chain[i]
  {
    assert drawn[i] in drawn;
    var k: nat :| k < |chain| && chain[k] == drawn[i];
    assert LinkOk(hash, drawn, i) && LinkOk(hash, chain, k);
    if i == 0 {
      assert k > 0 ==> LinkOk(hash, chain, k - 1);
    } else {
      DrawnFollows(hash, chain, drawn, i - 1);
      assert LinkOk(hash, drawn, i - 1);
      assert drawn[i].prevHash != "";
      SameIdSamePlace(hash, chain, k - 1, i - 1);
    }
  }

  /**
   What verification accepts: a list made of a chain's own events, with any of
   them dropped, repeated or moved, passes exactly when it is a prefix of the chain.
   */
  lemma DrawnListsPassIffPrefix(hash: Hash, chain: seq<Event>, drawn: seq<Event>)
    requires Ideal(hash) && Chain(hash, chain) && forall e :: e in drawn ==> e in chain
    ensures Chain(hash, drawn) <==> drawn <= chain
  {
    if Chain(hash, drawn) {
      forall i: nat | i < |drawn| ensures i < |chain| && drawn[i] == chain[i] {
        DrawnFollows(hash, chain, drawn, i);
      }
      if drawn != [] {
        DrawnFollows(hash, chain, drawn, |drawn| - 1);
      }
    }
    if drawn <= chain {
      forall i: nat | i < |drawn| ensures LinkOk(hash, drawn, i) {
        assert LinkOk(hash, chain, i);
      }
    }
  }

  /** Replacing one event of a chain, whatever else is kept, is noticed unless nothing changed. */
  lemma EditsAreNoticed(hash: Hash, chain: seq<Event>, i: nat, edited: Event)
    requires Ideal(hash) && Chain(hash, chain) && i + 1 < |chain|
    ensures Chain(hash, chain[i := edited]) <==> edited == chain[i]
  {
    var list := chain[i := edited];
    if Chain(hash, list) {
      assert LinkOk(hash, list, i) && LinkOk(hash, list, i + 1) && LinkOk(hash, chain, i) && LinkOk(hash, chain, i + 1);
      assert FieldsOf(edited) == FieldsOf(chain[i]);
    }
    if edited == chain[i] {
      assert list == chain;
    }
  }

  // ----- The store -----

  function LastId(events: seq<Event>): string {
    if events == [] then "" else events[|events| - 1].eventId
  }

  /** The event as it is stored at the end of the log. */
  function Linked(hash: Hash, events: seq<Event>, e: Event): Event {
    var chained := e.(prevHash := LastId(events));
    chained.(eventId := hash(FieldsOf(chained)))
  }

  /** The first event of the list with the id. */
  function Scan(events: seq<Event>, id: string): Option<Event> {
    if events == [] then None else if events[0].eventId == id then Some(events[0]) else Scan(events[1..], id)
  }

  lemma {:induction false} ScanFinds(events: seq<Event>, id: string)
    ensures match Scan(events, id)
            case Some(e) => e in events && e.eventId == id
            case None => forall e :: e in events ==> e.eventId != id
  {
    if events != [] && events[0].eventId != id {
      ScanFinds(events[1..], id);
      assert forall e :: e in events ==> e == events[0] || e in events[1..];
    }
  }

  class InMemoryStore {
    const hash: Hash
    var events: seq<Event>
    var byId: map<string, Event>
    var lastHash: string

    ghost predicate Valid()
      reads this
    {
      && Chain(hash, events) && lastHash == LastId(events)
      && (forall e :: e in events ==> e.eventId in byId)
      && (forall id :: id in byId ==> byId[id] in events && byId[id].eventId == id)
    }

    constructor (hash: Hash)
      ensures Valid() && events == [] && this.hash == hash
    {
      this.hash := hash;
      events, byId, lastHash := [], map[], "";
    }

    method Append(e: Event) returns (stored: Event)
      requires Valid()
      modifies this
      ensures Valid() && stored == Linked(hash, old(events), e) && events == old(events) + [stored]
      ensures stored.(eventId := e.eventId, prevHash := e.prevHash) == e
    {
      var chained := e.(prevHash := lastHash);
      stored := chained.(eventId := hash(FieldsOf(chained)));
      forall i: nat | i < |events| + 1 ensures LinkOk(hash, events + [stored], i) {
        assert i < |events| ==> LinkOk(hash, events, i);
      }
      events := events + [stored];
      byId := byId[stored.eventId := stored];
      lastHash := stored.eventId;
    }

    /** The id index answers as a scan of the log does. */
    method Get(id: string) returns (found: Option<Event>)
      requires Valid() && Ideal(hash)
      ensures found == Scan(events, id)
    {
      found := if id in byId then Some(byId[id]) else None;
      ScanFinds(events, id);
      if id in byId {
        var scanned := Scan(events, id).value;
        var i: nat :| i < |events| && events[i] == scanned;
        var j: nat :| j < |events| && events[j] == byId[id];
        SameIdSamePlace(hash, events, i, j);
      }
    }
  }
}
