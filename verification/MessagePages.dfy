/** Reading a conversation page by page, newest page first, while messages keep arriving. */
module MessagePages {
  import opened Wrappers
  import opened ConversationStore

  const DEFAULT_LIMIT: nat := 50
  const MAX_LIMIT: nat := 200

  /** The page size ListMessages uses for a requested one. */
  function PageSize(requested: int): nat {
    if requested <= 0 then DEFAULT_LIMIT else if requested > MAX_LIMIT then MAX_LIMIT else requested
  }

  /** A page is as large as asked for, within 1 and 200, and of 50 messages if no size is asked for. */
  lemma PageSizes(requested: int)
    ensures 1 <= requested <= 200 ==> PageSize(requested) == requested
    ensures requested <= 0 ==> PageSize(requested) == 50
    ensures requested > 200 ==> PageSize(requested) == 200
  {
  }

  // ----- The log of a conversation -----

  /** Numbers ascend in the order of the log, and message ids are generated fresh. */
  ghost predicate Ordered(all: seq<Message>) {
    && (forall i, j :: 0 <= i < j < |all| ==> all[i].number < all[j].number)
    && (forall i, j :: 0 <= i < j < |all| ==> all[i].messageId != all[j].messageId)
  }

  ghost predicate StoreOrdered(s: Contents) {
    forall id :: id in s.messages ==>
      Ordered(s.messages[id]) && forall k :: 0 <= k < |s.messages[id]| ==> s.messages[id][k].number <= s.nextNumber
  }

  predicate FreshId(s: Contents, m: Message) {
    forall k :: 0 <= k < |MessagesOf(s, m.conversationId)| ==> MessagesOf(s, m.conversationId)[k].messageId != m.messageId
  }

  /** Adding a message only extends the log of its conversation, and keeps every log in order. */
  lemma AddingExtends(s: Contents, m: Message)
    requires StoreOrdered(s) && FreshId(s, m)
    ensures StoreOrdered(Added(s, m))
    ensures forall id :: MessagesOf(s, id) <= MessagesOf(Added(s, m), id)
    ensures forall id :: id != m.conversationId ==> MessagesOf(Added(s, m), id) == MessagesOf(s, id)
  {
    var s' := Added(s, m);
    var all := MessagesOf(s, m.conversationId);
    assert forall k :: 0 <= k < |all| ==> all[k].number <= s.nextNumber;
    assert Ordered(all);
    assert Ordered(s'.messages[m.conversationId]);
  }

  // ----- One page -----

  lemma {:induction false} NumberAt(all: seq<Message>, k: nat)
    requires Ordered(all) && k < |all|
    ensures NumberOf(all, all[k].messageId) == Some(all[k].number)
  {
    if k > 0 {
      NumberAt(all[1..], k - 1);
    }
  }

  lemma {:induction false} BelowIsEligible(all: seq<Message>, n: int)
    requires forall i :: 0 <= i < |all| ==> all[i].number < n
    ensures EligibleOf(all, Some(n)) == all
  {
    if all != [] {
      BelowIsEligible(all[..|all| - 1], n);
    }
  }

  /** The messages before the k-th one are the first k. */
  lemma {:induction false} EligibleIsPrefix(all: seq<Message>, n: int, k: nat)
    requires k <= |all| && (forall i :: 0 <= i < k ==> all[i].number < n) && (forall i :: k <= i < |all| ==> all[i].number >= n)
    ensures EligibleOf(all, Some(n)) == all[..k]
    decreases |all|
  {
    if k == |all| {
      assert all[..k] == all;
      BelowIsEligible(all, n);
    } else {
      EligibleIsPrefix(all[..|all| - 1], n, k);
      assert all[..|all| - 1][..k] == all[..k];
    }
  }

  lemma {:induction false} AllEligible(all: seq<Message>)
    ensures EligibleOf(all, None) == all
  {
    if all != [] {
      AllEligible(all[..|all| - 1]);
    }
  }

  /** How many messages a cursor leaves to be read. */
  function Remaining(all: seq<Message>, cursor: Option<string>): nat {
    match cursor
    case None => |all|
    case Some(id) => Position(all, id)
  }

  function Position(all: seq<Message>, id: string): (k: nat)
    ensures k <= |all| && (k < |all| ==> all[k].messageId == id)
    ensures forall i :: 0 <= i < k ==> all[i].messageId != id
  {
    if all == [] || all[0].messageId == id then 0 else 1 + Position(all[1..], id)
  }

  predicate Names(all: seq<Message>, cursor: Option<string>) {
    cursor.None? || Position(all, cursor.value) < |all|
  }

  /** ListMessages once access has been granted: None when the cursor names no message of the conversation. */
  function ListPage(all: seq<Message>, cursor: Option<string>, requested: int): Option<(seq<Message>, bool)> {
    match cursor
    case None => Some(PageOf(all, None, PageSize(requested)))
    case Some(id) =>
      match NumberOf(all, id)
      case None => None
      case Some(n) => Some(PageOf(all, Some(n), PageSize(requested)))
  }

  function Min(a: nat, b: nat): nat {
    if a <= b then a else b
  }

  /** A page is the stretch of the log that ends where the cursor is. */
  lemma PageIsStretch(all: seq<Message>, cursor: Option<string>, requested: int)
    requires Ordered(all) && Names(all, cursor)
    ensures var rest, size := Remaining(all, cursor), PageSize(requested);
            ListPage(all, cursor, requested) == Some((all[rest - Min(rest, size)..rest], rest > size))
  {
    var rest, size := Remaining(all, cursor), PageSize(requested);
    if cursor.None? {
      AllEligible(all);
    } else {
      NumberAt(all, rest);
      EligibleIsPrefix(all, all[rest].number, rest);
    }
    assert all[..rest][rest - Min(rest, size)..] == all[rest - Min(rest, size)..rest];
    assert all[..|all|] == all;
  }

  // ----- The walk -----

  /** The log at the time of each call; it only grows. */
  ghost predicate Growing(logs: seq<seq<Message>>) {
    && (forall i :: 0 <= i < |logs| ==> Ordered(logs[i]))
    && (forall i, j :: 0 <= i <= j < |logs| ==> logs[i] <= logs[j])
  }

  lemma PositionStays(all: seq<Message>, more: seq<Message>, id: string)
    requires all <= more && Position(all, id) < |all|
    ensures Position(more, id) == Position(all, id)
  {
    assert forall i :: 0 <= i <= Position(all, id) ==> more[i] == all[i];
  }

  /**
   The pages a client reads, call after call, each time asking for what comes
   before the first message of the last page; `logs` is what the conversation
   holds at each call.  None if `logs` has too few calls to finish.
   */
  function Walk(logs: seq<seq<Message>>, cursor: Option<string>, requested: int): Option<seq<seq<Message>>>
    decreases |logs|
  {
    if logs == [] then None
    else
      match ListPage(logs[0], cursor, requested)
      case None => None
      case Some((page, false)) => Some([page])
      case Some((page, true)) =>
        if page == [] then None
        else
          match Walk(logs[1..], Some(page[0].messageId), requested)
          case None => None
          case Some(pages) => Some([page] + pages)
  }

  /** Oldest page first. */
  function Joined(pages: seq<seq<Message>>): seq<Message> {
    if pages == [] then [] else Joined(pages[1..]) + pages[0]
  }

  function CallsNeeded(rest: nat, size: nat): nat
    requires size > 0
  {
    if rest <= size then 1 else 1 + CallsNeeded(rest - size, size)
  }

  /** After a full page the next cursor stands where that page began, also in the log as it has grown. */
  lemma NextCursor(all: seq<Message>, more: seq<Message>, first: nat)
    requires Ordered(all) && all <= more && first < |all|
    ensures Names(more, Some(all[first].messageId)) && Remaining(more, Some(all[first].messageId)) == first
    ensures more[..first] == all[..first]
  {
    assert Position(all, all[first].messageId) == first;
    PositionStays(all, more, all[first].messageId);
  }

  lemma GrowingTail(logs: seq<seq<Message>>)
    requires Growing(logs) && |logs| > 1
    ensures Growing(logs[1..]) && logs[1..][0] == logs[1] && Ordered(logs[0]) && logs[0] <= logs[1]
  {
  }

  lemma WalkGoesOn(logs: seq<seq<Message>>, cursor: Option<string>, requested: int, page: seq<Message>, pages: seq<seq<Message>>)
    requires logs != [] && page != [] && ListPage(logs[0], cursor, requested) == Some((page, true))
    requires Walk(logs[1..], Some(page[0].messageId), requested) == Some(pages)
    ensures Walk(logs, cursor, requested) == Some([page] + pages)
  {
  }

  /** The walk from the cursor ends as expected with exactly what the cursor left to be read. */
  ghost predicate ReadsTheRest(logs: seq<seq<Message>>, cursor: Option<string>, requested: int)
    requires logs != []
  {
    var walk, rest := Walk(logs, cursor, requested), Remaining(logs[0], cursor);
    && walk.Some? && rest <= |logs[0]| && Joined(walk.value) == logs[0][..rest]
    && |walk.value| == CallsNeeded(rest, PageSize(requested))
  }

  lemma LastPage(logs: seq<seq<Message>>, cursor: Option<string>, requested: int)
    requires Growing(logs) && logs != [] && Names(logs[0], cursor) && Remaining(logs[0], cursor) <= PageSize(requested)
    ensures ReadsTheRest(logs, cursor, requested)
  {
    PageIsStretch(logs[0], cursor, requested);
    var page := logs[0][..Remaining(logs[0], cursor)];
    assert Walk(logs, cursor, requested) == Some([page]);
    assert Joined([page]) == page;
  }

  lemma RestOfTheWalk(logs: seq<seq<Message>>, requested: int, first: nat)
    requires Growing(logs) && |logs| > 1 && first < |logs[0]|
    requires ReadsTheRest(logs[1..], Some(logs[0][first].messageId), requested)
    ensures var walk := Walk(logs[1..], Some(logs[0][first].messageId), requested);
            walk.Some? && Joined(walk.value) == logs[0][..first] && |walk.value| == CallsNeeded(first, PageSize(requested))
  {
    GrowingTail(logs);
    NextCursor(logs[0], logs[1], first);
  }

  lemma WalkStep(logs: seq<seq<Message>>, cursor: Option<string>, requested: int, first: nat, rest: nat)
    requires |logs| > 1 && 0 < first < rest <= |logs[0]| && rest == Remaining(logs[0], cursor) == first + PageSize(requested)
    requires ListPage(logs[0], cursor, requested) == Some((logs[0][first..rest], true))
    requires var walk := Walk(logs[1..], Some(logs[0][first].messageId), requested);
             walk.Some? && Joined(walk.value) == logs[0][..first] && |walk.value| == CallsNeeded(first, PageSize(requested))
    ensures ReadsTheRest(logs, cursor, requested)
  {
    var page, pages := logs[0][first..rest], Walk(logs[1..], Some(logs[0][first].messageId), requested).value;
    assert page[0] == logs[0][first];
    WalkGoesOn(logs, cursor, requested, page, pages);
    JoinPage(pages, page, logs[0], first, rest);
  }

  /** After a full page there is a next call, with what remains before that page to be read. */
  lemma NextCall(logs: seq<seq<Message>>, cursor: Option<string>, requested: int, first: nat)
    requires Growing(logs) && logs != [] && Names(logs[0], cursor)
    requires Remaining(logs[0], cursor) > PageSize(requested) && first == Remaining(logs[0], cursor) - PageSize(requested)
    requires |logs| >= CallsNeeded(Remaining(logs[0], cursor), PageSize(requested))
    ensures first < |logs[0]| && |logs| > 1 && Growing(logs[1..]) && logs[1..] != []
    ensures Names(logs[1..][0], Some(logs[0][first].messageId))
    ensures Remaining(logs[1..][0], Some(logs[0][first].messageId)) == first
    ensures |logs[1..]| >= CallsNeeded(first, PageSize(requested))
  {
    GrowingTail(logs);
    NextCursor(logs[0], logs[1], first);
  }

  lemma FullPage(logs: seq<seq<Message>>, cursor: Option<string>, requested: int, first: nat)
    requires Growing(logs) && logs != [] && Names(logs[0], cursor)
    requires Remaining(logs[0], cursor) > PageSize(requested) && first == Remaining(logs[0], cursor) - PageSize(requested)
    ensures Remaining(logs[0], cursor) <= |logs[0]|
    ensures ListPage(logs[0], cursor, requested) == Some((logs[0][first..Remaining(logs[0], cursor)], true))
  {
    PageIsStretch(logs[0], cursor, requested);
  }

  /** The page of this call and what the rest of the walk reads make the whole. */
  lemma OneMoreCall(logs: seq<seq<Message>>, cursor: Option<string>, requested: int)
    requires Growing(logs) && logs != [] && Names(logs[0], cursor)
    requires Remaining(logs[0], cursor) > PageSize(requested)
    requires |logs| >= CallsNeeded(Remaining(logs[0], cursor), PageSize(requested))
    requires var first := Remaining(logs[0], cursor) - PageSize(requested);
             first < |logs[0]| && |logs| > 1 && ReadsTheRest(logs[1..], Some(logs[0][first].messageId), requested)
    ensures ReadsTheRest(logs, cursor, requested)
  {
    var rest, size := Remaining(logs[0], cursor), PageSize(requested);
    RestOfTheWalk(logs, requested, rest - size);
    FullPage(logs, cursor, requested, rest - size);
    WalkStep(logs, cursor, requested, rest - size, rest);
  }

  lemma {:induction false} WalkReadsTheRest(logs: seq<seq<Message>>, cursor: Option<string>, requested: int)
    requires Growing(logs) && logs != [] && Names(logs[0], cursor)
    requires |logs| >= CallsNeeded(Remaining(logs[0], cursor), PageSize(requested))
    ensures ReadsTheRest(logs, cursor, requested)
    decreases |logs|
  {
    var rest, size := Remaining(logs[0], cursor), PageSize(requested);
    if rest <= size {
      LastPage(logs, cursor, requested);
    } else {
      NextCall(logs, cursor, requested, rest - size);
      WalkReadsTheRest(logs[1..], Some(logs[0][rest - size].messageId), requested);
      OneMoreCall(logs, cursor, requested);
    }
  }

  lemma JoinPage(pages: seq<seq<Message>>, page: seq<Message>, all: seq<Message>, from: nat, to: nat)
    requires from <= to <= |all| && Joined(pages) == all[..from] && page == all[from..to]
    ensures Joined([page] + pages) == all[..to]
  {
    assert ([page] + pages)[1..] == pages;
    assert all[..from] + all[from..to] == all[..to];
  }

  /**
   Walking back from the newest page, with any requested page size and however
   many messages arrive meanwhile, ends after the expected number of calls with
   every message present at the first call, once each and in order.
   */
  lemma WalkReadsEverythingOnce(logs: seq<seq<Message>>, requested: int)
    requires Growing(logs) && logs != [] && |logs| >= CallsNeeded(|logs[0]|, PageSize(requested))
    ensures Walk(logs, None, requested).Some? && Joined(Walk(logs, None, requested).value) == logs[0]
    ensures |Walk(logs, None, requested).value| == CallsNeeded(|logs[0]|, PageSize(requested))
  {
    WalkReadsTheRest(logs, None, requested);
    assert logs[0][..|logs[0]|] == logs[0];
  }

  // ----- The Postgres form of one page -----

  /** What the query may answer: the newest eligible rows in descending order, no more than `count` of them. */
  ghost predicate NewestFirst(desc: seq<Message>, all: seq<Message>, before: Option<int>, count: nat) {
    && |desc| <= count
    && (forall i, j :: 0 <= i < j < |desc| ==> desc[i].number > desc[j].number)
    && (forall i :: 0 <= i < |desc| ==> desc[i] in all && Eligible(desc[i], before))
    && (forall m :: m in all && Eligible(m, before) && m !in desc ==>
                      |desc| == count && forall i :: 0 <= i < |desc| ==> m.number < desc[i].number)
  }

  lemma {:induction false} EligibleMembers(all: seq<Message>, before: Option<int>)
    requires Ordered(all)
    ensures var e := EligibleOf(all, before);
            && (forall m :: m in e <==> m in all && Eligible(m, before))
            && (forall i, j :: 0 <= i < j < |e| ==> e[i].number < e[j].number)
  {
    if all != [] {
      var shorter, last := all[..|all| - 1], all[|all| - 1];
      EligibleMembers(shorter, before);
      assert forall m :: m in all <==> m in shorter || m == last;
      forall m | m in EligibleOf(shorter, before) ensures m.number < last.number {
        assert m in shorter;
      }
    }
  }

  /** The same, in terms of the eligible messages `e` themselves. */
  ghost predicate TopRows(desc: seq<Message>, e: seq<Message>, count: nat) {
    && |desc| <= count
    && (forall k, l :: 0 <= k < l < |desc| ==> desc[k].number > desc[l].number)
    && (forall k, l :: 0 <= k < l < |e| ==> e[k].number < e[l].number)
    && (forall m :: m in desc ==> m in e)
    && (forall m :: m in e && m !in desc ==> |desc| == count && forall k :: 0 <= k < |desc| ==> m.number < desc[k].number)
  }

  /** Reading eligible messages from the newest down is forced, one row at a time. */
  lemma {:induction false} RowsAreForced(desc: seq<Message>, e: seq<Message>, count: nat, i: nat)
    requires TopRows(desc, e, count) && i < |desc|
    ensures i < |e| && desc[i] == e[|e| - 1 - i]
  {
    if i > 0 {
      RowsAreForced(desc, e, count, i - 1);
    }
    assert desc[i] in desc;
    var k :| 0 <= k < |e| && e[k] == desc[i];
    var top, row := e[|e| - 1 - i], desc[i];
    assert top !in desc ==> top.number < row.number;
  }

  lemma AllRowsForced(desc: seq<Message>, e: seq<Message>, count: nat)
    requires TopRows(desc, e, count)
    ensures |desc| == Min(|e|, count) && forall i :: 0 <= i < |desc| ==> desc[i] == e[|e| - 1 - i]
  {
    forall i: nat | i < |desc| ensures i < |e| && desc[i] == e[|e| - 1 - i] {
      RowsAreForced(desc, e, count, i);
    }
    if desc != [] {
      RowsAreForced(desc, e, count, |desc| - 1);
    }
    if |desc| < |e| {
      assert e[|e| - 1 - |desc|] !in desc;
    }
  }

  /** The Postgres form answers the page and the flag of the in-memory form, whatever rows its query may answer with. */
  lemma PostgresPageIsTheSame(desc: seq<Message>, all: seq<Message>, before: Option<int>, limit: nat, page: seq<Message>)
    requires Ordered(all) && NewestFirst(desc, all, before, limit + 1)
    requires |page| == Min(|desc|, limit) && forall i :: 0 <= i < |page| ==> page[i] == desc[|page| - 1 - i]
    ensures (page, |desc| > limit) == PageOf(all, before, limit)
  {
    var e := EligibleOf(all, before);
    EligibleMembers(all, before);
    AllRowsForced(desc, e, limit + 1);
    assert page == e[|e| - |page|..];
  }

  /** The rows are trimmed to `limit` and reversed. */
  method PostgresListMessages(desc: seq<Message>, limit: nat, ghost all: seq<Message>, ghost before: Option<int>)
    returns (page: seq<Message>, hasMore: bool)
    requires Ordered(all) && NewestFirst(desc, all, before, limit + 1)
    ensures (page, hasMore) == PageOf(all, before, limit)
  {
    hasMore := false;
    var kept := desc;
    if |desc| > limit {
      hasMore := true;
      kept := desc[..limit];
    }
    if |kept| == 0 {
      PostgresPageIsTheSame(desc, all, before, limit, []);
      return [], hasMore;
    }
    var out := new Message[|kept|](_ => kept[0]);
    for i := 0 to |kept|
      invariant forall k :: |kept| - i <= k < |kept| ==> out[k] == kept[|kept| - 1 - k]
    {
      out[|kept| - 1 - i] := kept[i];
    }
    page := out[..];
    PostgresPageIsTheSame(desc, all, before, limit, page);
  }
}
