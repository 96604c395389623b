/** What the chat page does when the user sends, edits or retries: calls to the
    server and updates of the cache, in the order the page makes them. */
module ChatFlows {
  import opened Text
  import opened Conversations
  import ChatStore
  import StreamPost

  datatype World = World(table: Table, cache: ChatStore.Cache)

  // ----------------------------------------------------------- single actions

  function Locally(w: World, conv: Id, update: ChatStore.Update): World {
    w.(cache := ChatStore.OnMessages(w.cache, conv, update))
  }

  predicate Mine(table: Table, user: UserId, conv: Id) {
    conv in table && table[conv].owner == user
  }

  function Saved(w: World, user: UserId, conv: Id, role: string, content: string, id: Id): World {
    if !Mine(w.table, user, conv) then w
    else
      var rows := w.table[conv].rows;
      World(WithRows(w.table, conv, Appended(rows, id, role, content)),
            ChatStore.OnMessages(w.cache, conv, ChatStore.BackFilling(role, id, |rows|)))
  }

  function Patched(w: World, user: UserId, conv: Id, id: Id, content: string): World {
    if !Mine(w.table, user, conv) then w
    else w.(table := WithRows(w.table, conv, Edited(w.table[conv].rows, id, content)))
  }

  function CutFrom(w: World, user: UserId, conv: Id, id: Id): World {
    if !Mine(w.table, user, conv) then w
    else w.(table := WithRows(w.table, conv, CutAt(w.table[conv].rows, id)))
  }

  function Placeholder(role: string, content: string): ChatStore.Message {
    ChatStore.Message(None, role, content, None)
  }

  /** The callbacks of a stream, handled one after the other. */
  function Heard(w: World, user: UserId, conv: Id, id: Id, accumulated: string,
                 trace: seq<StreamPost.Event>): World
    decreases |trace|
  {
    if trace == [] then w
    else match trace[0]
         case OnChunk(content) =>
           var longer := accumulated + content;
           Heard(Locally(w, conv, ChatStore.Setting(longer)), user, conv, id, longer, trace[1..])
         case OnDone =>
           Heard(if accumulated != "" then Patched(w, user, conv, id, accumulated) else w,
                 user, conv, id, accumulated, trace[1..])
         case OnError(message) =>
           Heard(Locally(w, conv, ChatStore.Setting("Error: " + message)),
                 user, conv, id, accumulated, trace[1..])
  }

  const COULD_NOT_CONNECT := "Error: Could not connect to the inference engine."

  /** The handler around the stream, which ends every flow: a rejected stream leaves an
      error in the last message, in the cache alone. */
  function Caught(w: World, conv: Id, rejected: bool): World {
    if rejected then Locally(w, conv, ChatStore.Setting(COULD_NOT_CONNECT)) else w
  }

  /** The tail of edit and retry: a placeholder, its row, and the stream. */
  function Answered(w: World, user: UserId, conv: Id, id: Id, trace: seq<StreamPost.Event>): World {
    var w1 := Locally(w, conv, ChatStore.Adding(Placeholder("assistant", "")));
    var w2 := Saved(w1, user, conv, "assistant", "", id);
    Heard(w2, user, conv, id, "", trace)
  }

  function Sent(w: World, user: UserId, conv: Id, text: string, id: Id, reply: Id,
                trace: seq<StreamPost.Event>): World {
    var w1 := Locally(w, conv, ChatStore.Adding(Placeholder("user", text)));
    var w2 := Locally(w1, conv, ChatStore.Adding(Placeholder("assistant", "")));
    var w3 := Saved(w2, user, conv, "user", text, id);
    var w4 := Saved(w3, user, conv, "assistant", "", reply);
    Heard(w4, user, conv, reply, "", trace)
  }

  function NextId(cache: ChatStore.Cache, conv: Id, index: nat): Option<Id> {
    match ChatStore.Find(cache, conv)
    case None => None
    case Some(c) => if index + 1 < |c.messages| then c.messages[index + 1].id else None
  }

  /** The edited text, in the cache and on the server. */
  function Rewritten(w: World, user: UserId, conv: Id, index: nat, msg: Id, text: string): World {
    Patched(Locally(w, conv, ChatStore.Rewriting(index, text)), user, conv, msg, text)
  }

  /** Everything after message `index` dropped, on the server by its identifier. */
  function CutAfter(w: World, user: UserId, conv: Id, index: nat): World {
    var w1 := match NextId(w.cache, conv, index)
              case None => w
              case Some(next) => CutFrom(w, user, conv, next);
    Locally(w1, conv, ChatStore.Cutting(index + 1))
  }

  function EditSubmitted(w: World, user: UserId, conv: Id, index: nat, msg: Id, text: string,
                         reply: Id, trace: seq<StreamPost.Event>): World {
    var w1 := Rewritten(w, user, conv, index, msg, text);
    if ChatStore.Find(w1.cache, conv).None? then w1
    else Answered(CutAfter(w1, user, conv, index), user, conv, reply, trace)
  }

  function Retried(w: World, user: UserId, conv: Id, index: nat, msg: Id, reply: Id,
                   trace: seq<StreamPost.Event>): World {
    var w1 := CutFrom(w, user, conv, msg);
    var w2 := Locally(w1, conv, ChatStore.Cutting(index));
    Answered(w2, user, conv, reply, trace)
  }

  // ------------------------------------------- listing, starting, fetching, deleting

  function Listed(w: World, ids: seq<Id>): World {
    w.(cache := ChatStore.Unloaded(ids))
  }

  function Started(w: World, user: UserId, conv: Id): World {
    World(w.table[conv := Conversation(user, [])],
          [ChatStore.Conversation(conv, [])] + w.cache)
  }

  function Fetched(w: World, user: UserId, conv: Id): World {
    if !Mine(w.table, user, conv) then w
    else Locally(w, conv, ChatStore.Replacing(
                   ChatStore.ReceivedAll(Sorted(w.table[conv].rows))))
  }

  function Deleted(w: World, user: UserId, conv: Id): World {
    if !Mine(w.table, user, conv) then w
    else World(w.table - {conv}, ChatStore.Without(w.cache, conv))
  }

  // ------------------------------------------------------------------ the page

  class ChatPage {
    const server: ConversationService
    const store: ChatStore.Store
    const user: UserId

    ghost function Seen(): World
      reads server, store
    {
      World(server.table, store.conversations)
    }

    constructor (server: ConversationService, store: ChatStore.Store, user: UserId)
      ensures this.server == server && this.store == store && this.user == user
    {
      this.server, this.store, this.user := server, store, user;
    }

    /** `fetchConversations`: what is listed is the user's, once each, and not loaded. */
    method ListConversations(newest: seq<Id>, limit: nat) returns (ids: seq<Id>)
      requires Different(newest) && forall id :: id in newest <==> id in server.table
      modifies store`conversations
      ensures Seen() == Listed(old(Seen()), ids)
      ensures Different(ids) && forall id :: id in ids ==> Mine(server.table, user, id)
    {
      ids := server.ListConversations(user, newest, limit);
      store.ReceiveList(ids);
    }

    /** `createConversation`; `conv` is the identifier generated for it. */
    method StartConversation(conv: Id)
      requires conv !in server.table
      modifies server, store
      ensures Seen() == Started(old(Seen()), user, conv)
      ensures store.activeId == Some(conv)
    {
      server.CreateConversation(user, conv);
      store.CreateConversation(conv);
    }

    /** `fetchConversation`: when it is refused, no conversation stays active. */
    method FetchConversation(conv: Id)
      modifies store
      ensures Seen() == Fetched(old(Seen()), user, conv)
      ensures store.activeId
           == if Mine(server.table, user, conv) then old(store.activeId) else None
    {
      var answer := server.GetConversation(user, conv);
      if answer.Ok? {
        store.ReceiveConversation(conv, answer.value);
      } else {
        store.Deactivate();
      }
    }

    /** `deleteConversation`: another one becomes active, but is not fetched. */
    method DeleteConversation(conv: Id)
      modifies server, store
      ensures Seen() == Deleted(old(Seen()), user, conv)
      ensures if Mine(old(server.table), user, conv) then
                && server.table == old(server.table) - {conv}
                && forall c :: c in store.conversations
                               <==> c in old(store.conversations) && c.id != conv
              else server.table == old(server.table)
                   && store.conversations == old(store.conversations)
      ensures old(store.activeId) == Some(conv) && Mine(old(server.table), user, conv) ==>
                store.activeId == if store.conversations == [] then None
                                  else Some(store.conversations[0].id)
    {
      var answer := server.DeleteConversation(user, conv);
      if answer.Ok? {
        store.DeleteConversation(conv);
      }
    }

    method Save(conv: Id, role: string, content: string, id: Id) returns (saved: bool)
      modifies server, store`conversations
      ensures saved <==> Mine(old(server.table), user, conv)
      ensures Seen() == Saved(old(Seen()), user, conv, role, content, id)
    {
      var answer := server.SaveMessage(user, conv, role, content, id);
      saved := answer.Ok?;
      if saved {
        store.ReceiveSaved(conv, role, answer.value.id, answer.value.position);
      }
    }

    method Patch(conv: Id, id: Id, role: string, content: string)
      modifies server
      ensures Seen() == Patched(old(Seen()), user, conv, id, content)
    {
      var answer := server.UpdateMessage(user, conv, id, role, content);
      assert answer == NotFound && Mine(old(server.table), user, conv) ==>
          old(server.table) == WithRows(old(server.table), conv,
                                        Edited(old(server.table)[conv].rows, id, content));
    }

    method Delete(conv: Id, id: Id)
      modifies server
      ensures Seen() == CutFrom(old(Seen()), user, conv, id)
    {
      var answer := server.DeleteMessagesFrom(user, conv, id);
      assert answer == NotFound && Mine(old(server.table), user, conv) ==>
          old(server.table) == WithRows(old(server.table), conv,
                                        CutAt(old(server.table)[conv].rows, id));
    }

    /** The callbacks of `runCompletionStream`, fired in the order of the trace, and
        its handler. */
    method RunCompletionStream(conv: Id, id: Id, trace: seq<StreamPost.Event>, rejected: bool)
      modifies server, store`conversations
      ensures Seen() == Caught(Heard(old(Seen()), user, conv, id, "", trace), conv, rejected)
    {
      var accumulated := "";
      assert trace[0..] == trace;
      for i := 0 to |trace|
        invariant Heard(Seen(), user, conv, id, accumulated, trace[i..])
               == Heard(old(Seen()), user, conv, id, "", trace)
      {
        assert trace[i..][1..] == trace[i + 1..];
        match trace[i]
        case OnChunk(content) =>
          accumulated := accumulated + content;
          store.UpdateLocalMessage(conv, accumulated);
        case OnDone =>
          if accumulated != "" {
            Patch(conv, id, "assistant", accumulated);
          }
        case OnError(message) =>
          store.UpdateLocalMessage(conv, "Error: " + message);
      }
      if rejected {
        store.UpdateLocalMessage(conv, COULD_NOT_CONNECT);
      }
    }

    method Answer(conv: Id, reply: Id, trace: seq<StreamPost.Event>, rejected: bool)
      modifies server, store`conversations
      ensures Seen() == Caught(Answered(old(Seen()), user, conv, reply, trace), conv, rejected)
    {
      store.AddLocalMessage(conv, Placeholder("assistant", ""));
      var saved := Save(conv, "assistant", "", reply);
      RunCompletionStream(conv, reply, trace, rejected);
    }

    /** `sendMessage`, for trimmed text that is not empty. */
    method SendMessage(conv: Id, text: string, id: Id, reply: Id, trace: seq<StreamPost.Event>,
                       rejected: bool)
      modifies server, store`conversations
      ensures Seen()
           == Caught(Sent(old(Seen()), user, conv, text, id, reply, trace), conv, rejected)
    {
      store.AddLocalMessage(conv, Placeholder("user", text));
      store.AddLocalMessage(conv, Placeholder("assistant", ""));
      var saved := Save(conv, "user", text, id);
      saved := Save(conv, "assistant", "", reply);
      RunCompletionStream(conv, reply, trace, rejected);
    }

    /** `handleEditSubmit`, for trimmed text that is not empty. */
    method HandleEditSubmit(conv: Id, index: nat, msg: Id, text: string, reply: Id,
                            trace: seq<StreamPost.Event>, rejected: bool)
      modifies server, store`conversations
      ensures Seen() == Caught(EditSubmitted(old(Seen()), user, conv, index, msg, text, reply,
                                             trace), conv, rejected)
    {
      store.EditLocalUserMessage(conv, index, text);
      Patch(conv, msg, "user", text);
      var found := ChatStore.Find(store.conversations, conv);
      if found.None? {
        assert Caught(Seen(), conv, rejected) == Seen();
        return;
      }
      var next := NextId(store.conversations, conv, index);
      if next.Some? {
        Delete(conv, next.value);
      }
      store.TruncateLocalMessages(conv, index + 1);
      Answer(conv, reply, trace, rejected);
    }

    /** `handleRetry`. */
    method HandleRetry(conv: Id, index: nat, msg: Id, reply: Id, trace: seq<StreamPost.Event>,
                       rejected: bool)
      modifies server, store`conversations
      ensures Seen()
           == Caught(Retried(old(Seen()), user, conv, index, msg, reply, trace), conv, rejected)
    {
      Delete(conv, msg);
      store.TruncateLocalMessages(conv, index);
      Answer(conv, reply, trace, rejected);
    }
  }
}
