/**
 The in-memory store of conversations and their messages.

 `Contents` is its abstract value.  Messages of a conversation are kept in the
 order they were added, numbered by one counter shared by all conversations.
 */
module ConversationStore {
  import opened Bytes
  import opened Wrappers

  datatype Conversation = Conversation(conversationId: string, lo: string, hi: string, createdAtUnix: int)

  /** `number` is the sequence number; the store assigns it. */
  datatype Message = Message(messageId: string, conversationId: string, sender: string, ciphertext: ByteString,
                             sessionPayload: Option<ByteString>, sentAtUnix: int, number: int)

  type Pair = (string, string)

  datatype Contents = Contents(conversations: map<string, Conversation>, pairIndex: map<Pair, string>,
                               messages: map<string, seq<Message>>, nextNumber: int)

  const EmptyContents := Contents(map[], map[], map[], 0)

  function PairOf(c: Conversation): Pair {
    (c.lo, c.hi)
  }

  /** The index and the records name the same conversations. */
  ghost predicate Indexed(s: Contents) {
    && (forall p :: p in s.pairIndex ==> s.pairIndex[p] in s.conversations && PairOf(s.conversations[s.pairIndex[p]]) == p)
    && (forall id :: id in s.conversations ==>
                       && s.conversations[id].conversationId == id
                       && PairOf(s.conversations[id]) in s.pairIndex && s.pairIndex[PairOf(s.conversations[id])] == id)
  }

  function Inserted(s: Contents, c: Conversation): Contents {
    s.(conversations := s.conversations[c.conversationId := c], pairIndex := s.pairIndex[PairOf(c) := c.conversationId])
  }

  function Deleted(s: Contents, id: string): Contents {
    if id !in s.conversations then s
    else s.(conversations := s.conversations - {id}, pairIndex := s.pairIndex - {PairOf(s.conversations[id])},
            messages := s.messages - {id})
  }

  function MessagesOf(s: Contents, id: string): seq<Message> {
    if id in s.messages then s.messages[id] else []
  }

  function Added(s: Contents, m: Message): Contents {
    var numbered := m.(number := s.nextNumber + 1);
    s.(messages := s.messages[m.conversationId := MessagesOf(s, m.conversationId) + [numbered]], nextNumber := s.nextNumber + 1)
  }

  /** Deleting leaves nothing of the conversation, and everything of the others. */
  lemma DeletedLeavesNothing(s: Contents, id: string, other: string)
    requires Indexed(s)
    ensures var s' := Deleted(s, id);
            && Indexed(s') && s'.conversations == s.conversations - {id} && s'.nextNumber == s.nextNumber
            && (id in s.conversations ==> MessagesOf(s', id) == [] && PairOf(s.conversations[id]) !in s'.pairIndex)
            && (other in s.conversations && other != id ==>
                  s'.pairIndex[PairOf(s.conversations[other])] == other && MessagesOf(s', other) == MessagesOf(s, other))
  {
    if other in s.conversations && id in s.conversations && other != id {
      assert PairOf(s.conversations[other]) != PairOf(s.conversations[id]);
    }
  }

  /** The first message with the id, in a list of messages. */
  function NumberOf(all: seq<Message>, messageId: string): Option<int> {
    if all == [] then None
    else if all[0].messageId == messageId then Some(all[0].number)
    else NumberOf(all[1..], messageId)
  }

  predicate Eligible(m: Message, before: Option<int>) {
    before.None? || m.number < before.value
  }

  function EligibleOf(all: seq<Message>, before: Option<int>): seq<Message> {
    if all == [] then []
    else EligibleOf(all[..|all| - 1], before) + if Eligible(all[|all| - 1], before) then [all[|all| - 1]] else []
  }

  /** The newest `limit` of the eligible messages, oldest first, and whether there are older ones. */
  function PageOf(all: seq<Message>, before: Option<int>, limit: nat): (seq<Message>, bool) {
    var eligible := EligibleOf(all, before);
    if |eligible| > limit then (eligible[|eligible| - limit..], true) else (eligible, false)
  }

  class InMemoryStore {
    var conversations: map<string, Conversation>
    var pairIndex: map<Pair, string>
    var messages: map<string, seq<Message>>
    var nextNumber: int

    ghost function View(): Contents
      reads this
    {
      Contents(conversations, pairIndex, messages, nextNumber)
    }

    constructor ()
      ensures View() == EmptyContents && Indexed(View())
    {
      conversations, pairIndex, messages, nextNumber := map[], map[], map[], 0;
    }

    method FindOrCreateConversation(candidate: Conversation) returns (rec: Conversation, created: bool)
      requires Indexed(View()) && candidate.conversationId !in conversations
      modifies this
      ensures Indexed(View())
      ensures created <==> PairOf(candidate) !in old(pairIndex)
      ensures View() == if created then Inserted(old(View()), candidate) else old(View())
      ensures PairOf(rec) == PairOf(candidate) && rec.conversationId == pairIndex[PairOf(candidate)]
      ensures created ==> rec == candidate
    {
      var key := (candidate.lo, candidate.hi);
      if key in pairIndex {
        return conversations[pairIndex[key]], false;
      }
      pairIndex := pairIndex[key := candidate.conversationId];
      conversations := conversations[candidate.conversationId := candidate];
      return candidate, true;
    }

    method DeleteConversationRecord(id: string)
      requires Indexed(View())
      modifies this
      ensures View() == Deleted(old(View()), id) && Indexed(View())
    {
      if id !in conversations {
        return;
      }
      var rec := conversations[id];
      conversations := conversations - {id};
      pairIndex := pairIndex - {(rec.lo, rec.hi)};
      messages := messages - {id};
    }

    method AddMessage(m: Message)
      modifies this
      ensures View() == Added(old(View()), m)
    {
      nextNumber := nextNumber + 1;
      var earlier := if m.conversationId in messages then messages[m.conversationId] else [];
      messages := messages[m.conversationId := earlier + [m.(number := nextNumber)]];
    }

    method MessageNumber(conversationId: string, messageId: string) returns (number: Option<int>)
      ensures number == NumberOf(MessagesOf(View(), conversationId), messageId)
    {
      var all := if conversationId in messages then messages[conversationId] else [];
      for i := 0 to |all|
        invariant NumberOf(all, messageId) == NumberOf(all[i..], messageId)
      {
        if all[i].messageId == messageId {
          return Some(all[i].number);
        }
      }
      return None;
    }

    method ListMessages(conversationId: string, before: Option<int>, limit: nat) returns (page: seq<Message>, hasMore: bool)
      ensures (page, hasMore) == PageOf(MessagesOf(View(), conversationId), before, limit)
    {
      var all := if conversationId in messages then messages[conversationId] else [];
      var eligible := [];
      for i := 0 to |all|
        invariant eligible == EligibleOf(all[..i], before)
      {
        assert all[..i + 1][..i] == all[..i];
        if before.None? || all[i].number < before.value {
          eligible := eligible + [all[i]];
        }
      }
      assert all[..|all|] == all;
      hasMore := false;
      var start := 0;
      if |eligible| > limit {
        hasMore := true;
        start := |eligible| - limit;
      }
      page := eligible[start..];
    }
  }
}
