/** The browser's cache of conversations. */
module ChatStore {
  import opened Text
  import Conversations

  type Id = Conversations.Id

  /** A message as the page holds it; a placeholder has no identifier yet. */
  datatype Message = Message(id: Option<Id>, role: string, content: string, position: Option<int>)

  datatype Conversation = Conversation(id: Id, messages: seq<Message>)

  type Cache = seq<Conversation>

  // ---------------------------------------------------------------- the rules

  /** `s.conversations.map(c => c.id === conv ? f(c) : c)`. */
  function OnMessages(cache: Cache, conv: Id, f: seq<Message> -> seq<Message>): (after: Cache)
    ensures |after| == |cache|
    ensures forall i :: 0 <= i < |cache| ==>
              after[i] == if cache[i].id == conv then cache[i].(messages := f(cache[i].messages))
                          else cache[i]
  {
    seq(|cache|, i requires 0 <= i < |cache| =>
      if cache[i].id == conv then cache[i].(messages := f(cache[i].messages)) else cache[i])
  }

  function Received(m: Conversations.Message): Message {
    Message(Some(m.id), m.role, m.content, Some(m.position))
  }

  function ReceivedAll(rows: seq<Conversations.Message>): seq<Message> {
    seq(|rows|, i requires 0 <= i < |rows| => Received(rows[i]))
  }

  /** The saved message's identifier and position go to every placeholder of its role. */
  function BackFilled(messages: seq<Message>, role: string, id: Id, position: int)
    : (after: seq<Message>)
  {
    seq(|messages|, i requires 0 <= i < |messages| =>
      if messages[i].role == role && messages[i].id.None?
      then messages[i].(id := Some(id), position := Some(position)) else messages[i])
  }

  function LastSet(messages: seq<Message>, content: string): seq<Message> {
    if messages != [] && messages[|messages| - 1].role == "assistant" then
      messages[|messages| - 1 := messages[|messages| - 1].(content := content)]
    else messages
  }

  function ContentSet(messages: seq<Message>, index: nat, content: string): seq<Message> {
    if index < |messages| then messages[index := messages[index].(content := content)]
    else messages
  }

  function Cut(messages: seq<Message>, index: nat): seq<Message> {
    if index < |messages| then messages[..index] else messages
  }

  // The updates above as the store applies them to one conversation's messages.

  type Update = seq<Message> -> seq<Message>

  function Replacing(messages: seq<Message>): Update {
    (_: seq<Message>) => messages
  }

  function Adding(msg: Message): Update {
    (ms: seq<Message>) => ms + [msg]
  }

  function BackFilling(role: string, id: Id, position: int): Update {
    (ms: seq<Message>) => BackFilled(ms, role, id, position)
  }

  function Setting(content: string): Update {
    (ms: seq<Message>) => LastSet(ms, content)
  }

  function Rewriting(index: nat, content: string): Update {
    (ms: seq<Message>) => ContentSet(ms, index, content)
  }

  function Cutting(index: nat): Update {
    (ms: seq<Message>) => Cut(ms, index)
  }

  function Without(cache: Cache, conv: Id): Cache {
    if cache == [] then []
    else (if cache[0].id == conv then [] else [cache[0]]) + Without(cache[1..], conv)
  }

  function Unloaded(ids: seq<Id>): Cache {
    seq(|ids|, i requires 0 <= i < |ids| => Conversation(ids[i], []))
  }

  /** `conversations.find((c) => c.id === conv)`. */
  function Find(cache: Cache, conv: Id): (found: Option<Conversation>)
    ensures found.Some? ==> found.value in cache && found.value.id == conv
    ensures found.None? ==> forall c :: c in cache ==> c.id != conv
  {
    if cache == [] then None
    else if cache[0].id == conv then Some(cache[0])
    else Find(cache[1..], conv)
  }

  /** Only this conversation changes, wherever it is held, and only in its messages. */
  ghost predicate OnlyIn(conv: Id, before: Cache, after: Cache) {
    && |after| == |before|
    && forall i :: 0 <= i < |before| ==>
         after[i].id == before[i].id && (before[i].id != conv ==> after[i] == before[i])
  }

  /** The one conversation with this identifier is at this index. */
  ghost predicate OnceAt(cache: Cache, conv: Id, i: nat) {
    && i < |cache| && cache[i].id == conv
    && forall j :: 0 <= j < |cache| && j != i ==> cache[j].id != conv
  }

  lemma {:induction false} WithoutAbsent(cache: Cache, conv: Id)
    requires forall i :: 0 <= i < |cache| ==> cache[i].id != conv
    ensures Without(cache, conv) == cache
  {
    if cache != [] {
      WithoutAbsent(cache[1..], conv);
    }
  }

  lemma {:induction false} WithoutOnce(cache: Cache, conv: Id, i: nat)
    requires OnceAt(cache, conv, i)
    ensures Without(cache, conv) == cache[..i] + cache[i + 1..]
  {
    if i == 0 {
      WithoutAbsent(cache[1..], conv);
    } else {
      assert forall j :: 0 <= j < |cache[1..]| ==> cache[1..][j] == cache[j + 1];
      WithoutOnce(cache[1..], conv, i - 1);
      assert cache[..i] == [cache[0]] + cache[1..][..i - 1];
    }
  }

  lemma {:induction false} WithoutIs(cache: Cache, conv: Id)
    ensures forall c :: c in Without(cache, conv) <==> c in cache && c.id != conv
  {
    if cache != [] {
      WithoutIs(cache[1..], conv);
    }
  }

  // ------------------------------------------------------------------ the store

  class Store {
    var conversations: Cache
    var activeId: Option<Id>

    constructor ()
      ensures conversations == [] && activeId == None
    {
      conversations, activeId := [], None;
    }

    /** `fetchConversations`, with the answer of the list endpoint: these conversations in
        this order, and none of their messages. */
    method ReceiveList(ids: seq<Id>)
      modifies `conversations
      ensures |conversations| == |ids|
      ensures forall i :: 0 <= i < |ids| ==>
                conversations[i].id == ids[i] && conversations[i].messages == []
      ensures conversations == Unloaded(ids)
    {
      conversations := Unloaded(ids);
    }

    /** `fetchConversation`, with the answer of the detail endpoint: that conversation
        takes the server's rows, field for field. */
    method ReceiveConversation(conv: Id, rows: seq<Conversations.Message>)
      modifies `conversations
      ensures OnlyIn(conv, old(conversations), conversations)
      ensures forall i :: 0 <= i < |conversations| && conversations[i].id == conv ==>
                |conversations[i].messages| == |rows|
      ensures forall i, j :: 0 <= i < |conversations| && conversations[i].id == conv
                             && 0 <= j < |rows| ==>
                conversations[i].messages[j]
                == Message(Some(rows[j].id), rows[j].role, rows[j].content, Some(rows[j].position))
      ensures conversations == OnMessages(old(conversations), conv, Replacing(ReceivedAll(rows)))
    {
      conversations := OnMessages(conversations, conv, Replacing(ReceivedAll(rows)));
    }

    /** What `fetchConversation` does when the call fails. */
    method Deactivate()
      modifies `activeId
      ensures activeId == None
    {
      activeId := None;
    }

    method CreateConversation(conv: Id)
      modifies this
      ensures conversations == [Conversation(conv, [])] + old(conversations)
      ensures activeId == Some(conv)
    {
      conversations := [Conversation(conv, [])] + conversations;
      activeId := Some(conv);
    }

    /** The conversation goes, the others stay in their order. When it was the active
        one, the first one left becomes active, without being fetched. */
    method DeleteConversation(conv: Id)
      modifies this
      ensures conversations == Without(old(conversations), conv)
      ensures forall c :: c in conversations <==> c in old(conversations) && c.id != conv
      ensures forall i: nat | OnceAt(old(conversations), conv, i) ::
                conversations == old(conversations)[..i] + old(conversations)[i + 1..]
      ensures old(activeId) != Some(conv) ==> activeId == old(activeId)
      ensures old(activeId) == Some(conv) ==>
                && activeId != Some(conv)
                && (activeId.None? <==> conversations == [])
                && (activeId.Some? ==> activeId == Some(conversations[0].id))
    {
      WithoutIs(conversations, conv);
      forall i: nat | OnceAt(conversations, conv, i)
        ensures Without(conversations, conv) == conversations[..i] + conversations[i + 1..]
      {
        WithoutOnce(conversations, conv, i);
      }
      conversations := Without(conversations, conv);
      if activeId == Some(conv) {
        activeId := if conversations == [] then None else Some(conversations[0].id);
        assert conversations != [] ==> conversations[0] in conversations;
      }
    }

    /** `saveMessage`, with the saved message: each placeholder of its role, in that
        conversation, takes the identifier and position, and nothing else changes. */
    method ReceiveSaved(conv: Id, role: string, id: Id, position: int)
      modifies `conversations
      ensures OnlyIn(conv, old(conversations), conversations)
      ensures forall i, j :: 0 <= i < |conversations| && conversations[i].id == conv
                             && 0 <= j < |old(conversations)[i].messages| ==>
                var was, now := old(conversations)[i].messages, conversations[i].messages;
                && |now| == |was|
                && now[j].role == was[j].role && now[j].content == was[j].content
                && now[j].id == (if was[j].id.None? && was[j].role == role then Some(id)
                                 else was[j].id)
                && now[j].position == (if was[j].id.None? && was[j].role == role
                                       then Some(position) else was[j].position)
      ensures conversations ==
              OnMessages(old(conversations), conv, BackFilling(role, id, position))
    {
      conversations := OnMessages(conversations, conv, BackFilling(role, id, position));
    }

    /** The message comes last in that conversation. */
    method AddLocalMessage(conv: Id, msg: Message)
      modifies `conversations
      ensures OnlyIn(conv, old(conversations), conversations)
      ensures forall i :: 0 <= i < |conversations| && conversations[i].id == conv ==>
                conversations[i].messages == old(conversations)[i].messages + [msg]
      ensures conversations == OnMessages(old(conversations), conv, Adding(msg))
    {
      conversations := OnMessages(conversations, conv, Adding(msg));
    }

    /** The last message of that conversation takes the content if it is the
        assistant's; all others, and everything else of it, stay. */
    method UpdateLocalMessage(conv: Id, content: string)
      modifies `conversations
      ensures OnlyIn(conv, old(conversations), conversations)
      ensures forall i, j :: 0 <= i < |conversations| && conversations[i].id == conv
                             && 0 <= j < |old(conversations)[i].messages| ==>
                var was, now := old(conversations)[i].messages, conversations[i].messages;
                && |now| == |was|
                && now[j].content == (if j == |was| - 1 && was[j].role == "assistant"
                                      then content else was[j].content)
                && now[j].id == was[j].id && now[j].role == was[j].role
                && now[j].position == was[j].position
      ensures conversations == OnMessages(old(conversations), conv, Setting(content))
    {
      conversations := OnMessages(conversations, conv, Setting(content));
    }

    /** The message at the index, if there is one, takes the content; all others, and
        everything else of it, stay. */
    method EditLocalUserMessage(conv: Id, index: nat, content: string)
      modifies `conversations
      ensures OnlyIn(conv, old(conversations), conversations)
      ensures forall i, j :: 0 <= i < |conversations| && conversations[i].id == conv
                             && 0 <= j < |old(conversations)[i].messages| ==>
                var was, now := old(conversations)[i].messages, conversations[i].messages;
                && |now| == |was|
                && now[j].content == (if j == index then content else was[j].content)
                && now[j].id == was[j].id && now[j].role == was[j].role
                && now[j].position == was[j].position
      ensures conversations ==
              OnMessages(old(conversations), conv, Rewriting(index, content))
    {
      conversations := OnMessages(conversations, conv, Rewriting(index, content));
    }

    /** The messages before the index stay, in that conversation, and the others go. */
    method TruncateLocalMessages(conv: Id, index: nat)
      modifies `conversations
      ensures OnlyIn(conv, old(conversations), conversations)
      ensures forall i :: 0 <= i < |conversations| && conversations[i].id == conv ==>
                var was, now := old(conversations)[i].messages, conversations[i].messages;
                && now <= was
                && (|was| <= index ==> now == was) && (|was| > index ==> |now| == index)
      ensures conversations == OnMessages(old(conversations), conv, Cutting(index))
    {
      conversations := OnMessages(conversations, conv, Cutting(index));
    }
  }
}
