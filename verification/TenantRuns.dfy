/** Every reachable tenant database keeps its rows within their organisations, so
    the deletes written by hand always go through. */
module TenantRuns {
  import opened Text
  import opened Tenant

  datatype Request =
    | CreateOrg(org: Id)
    | AddUser(user: Id, org: Id, role: string)
    | ChangeRole(user: Id, role: string)
    | LogIn(user: Id)
    | UseKey(key: Id)
    | CreateKey(caller: Claim, key: Id, digest: string)
    | RotateKey(caller: Claim, key: Id, digest: string)
    | RevokeKey(caller: Claim, key: Id)
    | LogUsage(caller: Claim, prompt: int, completion: int, at: int)
    | StartConversation(caller: Claim, conversation: Id)
    | AddMessage(caller: Claim, conversation: Id, message: Id)
    | DeleteConversation(caller: Claim, conversation: Id)
    | DeleteMessages(caller: Claim, conversation: Id, gone: set<Id>)
    | DeleteUser(caller: Claim, user: Id)
    | DeleteOrg(org: Id)

  /** The database, every claim ever issued, and every identifier ever generated.
      Claims outlive the rows they name. */
  datatype State = State(db: Db, claims: set<Claim>, minted: set<Id>)

  /** An insert is dropped when a foreign key refuses it. */
  function Accepted(db: Db, insert: Db): Db {
    if NoDangling(insert) then insert else db
  }

  function Minting(request: Request): set<Id> {
    match request
    case CreateOrg(org) => {org}
    case AddUser(user, _, _) => {user}
    case CreateKey(_, key, _) => {key}
    case StartConversation(_, conversation) => {conversation}
    case AddMessage(_, _, message) => {message}
    case _ => {}
  }

  function Entry(caller: Claim, prompt: int, completion: int, at: int): Log {
    Log(caller.org, Some(caller.user), caller.key, prompt, completion, prompt + completion, at)
  }

  /** A conversation deleted, with the cascade to its messages. */
  function WithoutConversation(db: Db, conversation: Id): Db {
    db.(conversations := db.conversations - {conversation},
        messages := map m | m in db.messages && db.messages[m].conversation != conversation
                      :: db.messages[m])
  }

  /** Some of a conversation's messages deleted: those from a position on. */
  function WithoutMessages(db: Db, conversation: Id, gone: set<Id>): Db {
    db.(messages := map m | m in db.messages
                            && !(m in gone && db.messages[m].conversation == conversation)
                      :: db.messages[m])
  }

  function Stored(db: Db, request: Request): Db {
    match request
    case CreateOrg(org) => db.(orgs := db.orgs + {org})
    case AddUser(user, org, role) => Accepted(db, db.(users := db.users[user := User(org, role)]))
    case ChangeRole(user, role) =>
      if user in db.users then db.(users := db.users[user := db.users[user].(role := role)]) else db
    case LogIn(_) => db
    case UseKey(_) => db
    case CreateKey(caller, key, digest) =>
      Accepted(db, WithKey(db, key, Key(caller.org, caller.user, digest, true)))
    case RotateKey(caller, key, digest) =>
      if ReachesKey(caller, db, key) then WithKey(db, key, db.keys[key].(digest := digest)) else db
    case RevokeKey(caller, key) => if ReachesKey(caller, db, key) then KeyRevoked(db, key) else db
    case LogUsage(caller, prompt, completion, at) =>
      Accepted(db, db.(logs := db.logs + [Entry(caller, prompt, completion, at)]))
    case StartConversation(caller, conversation) =>
      Accepted(db, db.(conversations := db.conversations[conversation := caller.user]))
    case AddMessage(caller, conversation, message) =>
      if conversation in db.conversations && db.conversations[conversation] == caller.user then
        Accepted(db, db.(messages := db.messages[message := ChatMessage(conversation, caller.user)]))
      else db
    case DeleteConversation(caller, conversation) =>
      if conversation in db.conversations && db.conversations[conversation] == caller.user then
        WithoutConversation(db, conversation) else db
    case DeleteMessages(caller, conversation, gone) =>
      if conversation in db.conversations && db.conversations[conversation] == caller.user then
        WithoutMessages(db, conversation, gone) else db
    case DeleteUser(caller, user) => if Reaches(caller, db, user) then WithoutUser(db, user) else db
    case DeleteOrg(org) =>
      if org in db.orgs && Enclosed(db, org) then WithoutOrg(db, org) else db
  }

  /** A token names the user's organisation; a key stands for its creator. */
  function Issued(db: Db, request: Request): set<Claim> {
    match request
    case LogIn(user) =>
      if user in db.users then {Claim(user, db.users[user].org, db.users[user].role, None)} else {}
    case UseKey(key) =>
      if key in db.keys && db.keys[key].active then
        {Claim(db.keys[key].creator, db.keys[key].org, "operator", Some(key))} else {}
    case _ => {}
  }

  function Step(s: State, request: Request): State {
    State(Stored(s.db, request), s.claims + Issued(s.db, request), s.minted + Minting(request))
  }

  predicate Claims(request: Request, claims: set<Claim>) {
    match request
    case CreateKey(caller, _, _) => caller in claims
    case LogUsage(caller, _, _, _) => caller in claims
    case _ => true
  }

  predicate Legal(s: State, request: Request) {
    Minting(request) !! s.minted && Claims(request, s.claims)
  }

  // ---------------------------------------------------------------- invariants

  ghost predicate ClaimHolds(c: Claim, db: Db, minted: set<Id>) {
    && c.user in minted
    && (c.user in db.users ==> db.users[c.user].org == c.org)
    && (c.key.Some? ==> c.key.value in minted)
    && (c.key.Some? && c.key.value in db.keys ==> db.keys[c.key.value].org == c.org)
  }

  ghost predicate Known(db: Db, minted: set<Id>) {
    && (forall u :: u in db.users ==> u in minted)
    && (forall k :: k in db.keys ==> k in minted)
    && (forall c :: c in db.conversations ==> c in minted)
  }

  ghost predicate Inv(s: State) {
    && NoDangling(s.db) && Owned(s.db) && Known(s.db, s.minted)
    && forall c :: c in s.claims ==> ClaimHolds(c, s.db, s.minted)
  }

  /** The rows of one database are among those of another, their owners unchanged. */
  ghost predicate Within(after: Db, before: Db) {
    && (forall u | u in after.users ::
          u in before.users && after.users[u].org == before.users[u].org)
    && (forall k | k in after.keys ::
          && k in before.keys
          && after.keys[k].org == before.keys[k].org
          && after.keys[k].creator == before.keys[k].creator)
    && (forall c | c in after.conversations :: c in before.conversations)
  }

  lemma {:induction false} WithinItself(db: Db)
    ensures Within(db, db)
  {
  }

  lemma {:induction false} WithinClaims(after: Db, before: Db, c: Claim, minted: set<Id>,
        more: set<Id>)
    requires Within(after, before) && ClaimHolds(c, before, minted) && minted <= more
    ensures ClaimHolds(c, after, more)
  {
  }

  lemma {:induction false} AllOwned(db: Db)
    requires forall l :: l in db.logs ==> LogOwned(l, db)
    ensures forall i | 0 <= i < |db.logs| :: LogOwned(db.logs[i], db)
  {
    forall i | 0 <= i < |db.logs| ensures LogOwned(db.logs[i], db) {
      assert db.logs[i] in db.logs;
    }
  }

  lemma {:induction false} LogInOwned(db: Db, l: Log)
    requires Owned(db) && l in db.logs
    ensures LogOwned(l, db)
  {
  }

  /** Deleting an organisation keeps the others owned. */
  lemma {:induction false} WithoutOrgOwned(db: Db, org: Id)
    requires NoDangling(db) && Owned(db)
    ensures Within(WithoutOrg(db, org), db) && Owned(WithoutOrg(db, org))
    ensures NoDangling(WithoutOrg(db, org))
  {
    var after := WithoutOrg(db, org);
    OwnedIsEnclosed(db, org);
    OrgStatements(db, org);
    KeepIs(OtherOrg(org), db.logs);
    forall l | l in after.logs ensures LogOwned(l, after) {
      LogInOwned(db, l);
    }
    AllOwned(after);
  }

  lemma {:induction false} WithoutUserWithin(db: Db, user: Id)
    requires user in db.users
    ensures Within(WithoutUser(db, user), db)
  {
  }

  lemma {:induction false} WithoutUserOwned(db: Db, user: Id)
    requires NoDangling(db) && Owned(db) && user in db.users
    ensures Within(WithoutUser(db, user), db) && Owned(WithoutUser(db, user))
    ensures NoDangling(WithoutUser(db, user))
  {
    WithoutUserWithin(db, user);
    var after := WithoutUser(db, user);
    UserStatements(db, user);
    hide NoDangling, Within;
    forall i | 0 <= i < |after.logs| ensures LogOwned(after.logs[i], after) {
      assert LogOwned(db.logs[i], db);
      assert after.logs[i] == NullifyKey(NullifyUser(db.logs[i], user), KeysBy(db, user));
    }
  }

  lemma {:induction false} KeyRevokedWithin(db: Db, key: Id)
    requires key in db.keys
    ensures Within(KeyRevoked(db, key), db)
  {
  }

  lemma {:induction false} KeyRevokedOwned(db: Db, key: Id)
    requires NoDangling(db) && Owned(db) && key in db.keys
    ensures Within(KeyRevoked(db, key), db) && Owned(KeyRevoked(db, key))
    ensures NoDangling(KeyRevoked(db, key))
  {
    KeyRevokedWithin(db, key);
    var after := KeyRevoked(db, key);
    KeyStatements(db, key);
    hide NoDangling, Within;
    forall i | 0 <= i < |after.logs| ensures LogOwned(after.logs[i], after) {
      assert LogOwned(db.logs[i], db);
    }
  }

  lemma {:induction false} SameLogsKeep(db: Db, after: Db)
    requires NoDangling(db) && Owned(db)
    requires after.orgs == db.orgs && after.logs == db.logs
    requires Within(after, db) && after.users.Keys == db.users.Keys && after.keys.Keys == db.keys.Keys
    requires after.conversations == db.conversations && after.messages == db.messages
    ensures NoDangling(after) && Owned(after)
  {
    forall i | 0 <= i < |after.logs|
      ensures LogRefers(after.logs[i], after) && LogOwned(after.logs[i], after)
    {
      assert LogRefers(db.logs[i], db) && LogOwned(db.logs[i], db);
    }
  }

  lemma {:induction false} RoleKeeps(db: Db, user: Id, role: string)
    requires NoDangling(db) && Owned(db) && user in db.users
    ensures var after := db.(users := db.users[user := db.users[user].(role := role)]);
            NoDangling(after) && Owned(after) && Within(after, db)
  {
    var after := db.(users := db.users[user := db.users[user].(role := role)]);
    assert after.users.Keys == db.users.Keys;
    SameLogsKeep(db, after);
  }

  lemma {:induction false} DigestKeeps(db: Db, key: Id, digest: string)
    requires NoDangling(db) && Owned(db) && key in db.keys
    ensures var after := WithKey(db, key, db.keys[key].(digest := digest));
            NoDangling(after) && Owned(after) && Within(after, db)
  {
    var after := WithKey(db, key, db.keys[key].(digest := digest));
    assert after.keys.Keys == db.keys.Keys;
    SameLogsKeep(db, after);
  }

  /** Updates. */
  lemma {:induction false} UpdateKeeps(db: Db, request: Request)
    requires NoDangling(db) && Owned(db)
    requires request.ChangeRole? || request.LogIn? || request.UseKey? || request.RotateKey?
    ensures NoDangling(Stored(db, request)) && Owned(Stored(db, request))
    ensures Within(Stored(db, request), db)
  {
    hide NoDangling, Owned, Within;
    WithinItself(db);
    match request
    case ChangeRole(user, role) =>
      if user in db.users {
        RoleKeeps(db, user, role);
      }
    case RotateKey(caller, key, digest) =>
      if ReachesKey(caller, db, key) {
        DigestKeeps(db, key, digest);
      }
    case _ =>
  }

  /** Deletes. */
  lemma {:induction false} ShrinkKeeps(db: Db, request: Request)
    requires NoDangling(db) && Owned(db)
    requires request.RevokeKey? || request.DeleteUser? || request.DeleteOrg?
             || request.DeleteConversation? || request.DeleteMessages?
    ensures NoDangling(Stored(db, request)) && Owned(Stored(db, request))
    ensures Within(Stored(db, request), db)
  {
    hide NoDangling, Owned, Within, KeyRevoked, WithoutUser, WithoutOrg, Enclosed;
    hide WithoutConversation, WithoutMessages;
    WithinItself(db);
    match request
    case RevokeKey(caller, key) =>
      if ReachesKey(caller, db, key) {
        KeyRevokedOwned(db, key);
      }
    case DeleteUser(caller, user) =>
      if Reaches(caller, db, user) {
        WithoutUserOwned(db, user);
      }
    case DeleteOrg(org) => WithoutOrgOwned(db, org);
    case DeleteConversation(_, conversation) => ConversationDeleted(db, conversation);
    case DeleteMessages(_, conversation, gone) => MessagesDeleted(db, conversation, gone);
  }

  lemma {:induction false} ConversationDeleted(db: Db, conversation: Id)
    requires NoDangling(db) && Owned(db)
    ensures var after := WithoutConversation(db, conversation);
            NoDangling(after) && Owned(after) && Within(after, db)
  {
    var after := WithoutConversation(db, conversation);
    forall i | 0 <= i < |db.logs| ensures LogRefers(db.logs[i], after) && LogOwned(db.logs[i], after) {
      assert LogRefers(db.logs[i], db) && LogOwned(db.logs[i], db);
    }
  }

  lemma {:induction false} MessagesDeleted(db: Db, conversation: Id, gone: set<Id>)
    requires NoDangling(db) && Owned(db)
    ensures var after := WithoutMessages(db, conversation, gone);
            NoDangling(after) && Owned(after) && Within(after, db)
  {
    var after := WithoutMessages(db, conversation, gone);
    forall i | 0 <= i < |db.logs| ensures LogRefers(db.logs[i], after) && LogOwned(db.logs[i], after) {
      assert LogRefers(db.logs[i], db) && LogOwned(db.logs[i], db);
    }
  }

  /** Inserts leave every claim as good as it was. */
  lemma {:induction false} GrowClaims(s: State, request: Request)
    requires Inv(s) && Legal(s, request)
    requires request.CreateOrg? || request.AddUser? || request.CreateKey? || request.LogUsage?
             || request.StartConversation? || request.AddMessage?
    ensures forall c :: c in s.claims ==>
              ClaimHolds(c, Stored(s.db, request), s.minted + Minting(request))
  {
    hide NoDangling, Owned;
    forall c | c in s.claims
      ensures ClaimHolds(c, Stored(s.db, request), s.minted + Minting(request))
    {
      assert ClaimHolds(c, s.db, s.minted);
    }
  }

  lemma {:induction false} OrgAdded(db: Db, org: Id)
    requires NoDangling(db) && Owned(db)
    ensures NoDangling(db.(orgs := db.orgs + {org})) && Owned(db.(orgs := db.orgs + {org}))
  {
    var after := db.(orgs := db.orgs + {org});
    forall i | 0 <= i < |after.logs|
      ensures LogRefers(after.logs[i], after) && LogOwned(after.logs[i], after)
    {
      assert LogRefers(db.logs[i], db) && LogOwned(db.logs[i], db);
    }
  }

  lemma {:induction false} UserAdded(db: Db, user: Id, row: User)
    requires NoDangling(db) && Owned(db) && user !in db.users
    ensures Owned(db.(users := db.users[user := row]))
  {
    var after := db.(users := db.users[user := row]);
    forall i | 0 <= i < |after.logs| ensures LogOwned(after.logs[i], after) {
      assert LogRefers(db.logs[i], db) && LogOwned(db.logs[i], db);
    }
  }

  lemma {:induction false} KeyAdded(db: Db, minted: set<Id>, caller: Claim, key: Id, digest: string)
    requires NoDangling(db) && Owned(db) && key !in db.keys && ClaimHolds(caller, db, minted)
    ensures Owned(WithKey(db, key, Key(caller.org, caller.user, digest, true)))
  {
    var after := WithKey(db, key, Key(caller.org, caller.user, digest, true));
    forall i | 0 <= i < |after.logs| ensures LogOwned(after.logs[i], after) {
      assert LogRefers(db.logs[i], db) && LogOwned(db.logs[i], db);
    }
  }

  lemma {:induction false} LogAdded(db: Db, minted: set<Id>, caller: Claim, prompt: int,
        completion: int, at: int)
    requires NoDangling(db) && Owned(db) && ClaimHolds(caller, db, minted)
    ensures Owned(db.(logs := db.logs + [Entry(caller, prompt, completion, at)]))
  {
    var after := db.(logs := db.logs + [Entry(caller, prompt, completion, at)]);
    forall i | 0 <= i < |after.logs| ensures LogOwned(after.logs[i], after) {
      assert i < |db.logs| ==> LogOwned(db.logs[i], db);
    }
  }

  lemma {:induction false} ConversationAdded(db: Db, conversation: Id, user: Id)
    requires NoDangling(db) && Owned(db) && conversation !in db.conversations
    ensures Owned(db.(conversations := db.conversations[conversation := user]))
  {
    var after := db.(conversations := db.conversations[conversation := user]);
    forall i | 0 <= i < |after.logs| ensures LogOwned(after.logs[i], after) {
      assert LogOwned(db.logs[i], db);
    }
  }

  lemma {:induction false} MessageAdded(db: Db, conversation: Id, message: Id)
    requires NoDangling(db) && Owned(db) && conversation in db.conversations
    ensures var row := ChatMessage(conversation, db.conversations[conversation]);
            Owned(db.(messages := db.messages[message := row]))
  {
    var row := ChatMessage(conversation, db.conversations[conversation]);
    var after := db.(messages := db.messages[message := row]);
    forall i | 0 <= i < |after.logs| ensures LogOwned(after.logs[i], after) {
      assert LogOwned(db.logs[i], db);
    }
  }

  lemma {:induction false} StoredIsKnown(s: State, request: Request)
    requires Known(s.db, s.minted)
    requires request.CreateOrg? || request.AddUser? || request.CreateKey? || request.LogUsage?
             || request.StartConversation? || request.AddMessage?
    ensures Known(Stored(s.db, request), s.minted + Minting(request))
  {
    hide NoDangling;
  }

  /** Inserts: what a claim brings in belongs to the claim's organisation. */
  lemma {:induction false} GrowKeeps(s: State, request: Request)
    requires Inv(s) && Legal(s, request)
    requires request.CreateOrg? || request.AddUser? || request.CreateKey? || request.LogUsage?
             || request.StartConversation? || request.AddMessage?
    ensures var after := Stored(s.db, request);
            NoDangling(after) && Owned(after) && Known(after, s.minted + Minting(request))
  {
    hide NoDangling, Owned, ClaimHolds;
    StoredIsKnown(s, request);
    match request
    case CreateOrg(org) => OrgAdded(s.db, org);
    case AddUser(user, org, role) => UserAdded(s.db, user, User(org, role));
    case CreateKey(caller, key, digest) => KeyAdded(s.db, s.minted, caller, key, digest);
    case LogUsage(caller, prompt, completion, at) =>
      LogAdded(s.db, s.minted, caller, prompt, completion, at);
    case StartConversation(caller, conversation) =>
      ConversationAdded(s.db, conversation, caller.user);
    case AddMessage(caller, conversation, message) =>
      if conversation in s.db.conversations {
        MessageAdded(s.db, conversation, message);
      }
  }

  lemma {:induction false} IssuedHold(s: State, request: Request)
    requires Inv(s)
    ensures forall c :: c in Issued(s.db, request) ==> ClaimHolds(c, s.db, s.minted)
  {
  }

  lemma {:induction false} StepKeeps(s: State, request: Request)
    requires Inv(s) && Legal(s, request)
    ensures Inv(Step(s, request))
  {
    IssuedHold(s, request);
    var after := Stored(s.db, request);
    if request.CreateOrg? || request.AddUser? || request.CreateKey? || request.LogUsage?
       || request.StartConversation? || request.AddMessage? {
      GrowKeeps(s, request);
      GrowClaims(s, request);
    } else {
      if request.RevokeKey? || request.DeleteUser? || request.DeleteOrg?
         || request.DeleteConversation? || request.DeleteMessages? {
        ShrinkKeeps(s.db, request);
      } else {
        UpdateKeeps(s.db, request);
      }
      forall c | c in s.claims + Issued(s.db, request)
        ensures ClaimHolds(c, after, s.minted + Minting(request))
      {
        WithinClaims(after, s.db, c, s.minted, s.minted + Minting(request));
      }
    }
  }

  // ---------------------------------------------------------------------- runs

  const EMPTY := State(Db({}, map[], map[], [], map[], map[]), {}, {})

  function Execute(s: State, requests: seq<Request>): State
    decreases |requests|
  {
    if requests == [] then s else Execute(Step(s, requests[0]), requests[1..])
  }

  predicate LegalRun(s: State, requests: seq<Request>)
    decreases |requests|
  {
    requests == [] || (Legal(s, requests[0]) && LegalRun(Step(s, requests[0]), requests[1..]))
  }

  lemma {:induction false} ExecuteKeeps(s: State, requests: seq<Request>)
    requires Inv(s) && LegalRun(s, requests)
    ensures Inv(Execute(s, requests))
    decreases |requests|
  {
    if requests != [] {
      StepKeeps(s, requests[0]);
      ExecuteKeeps(Step(s, requests[0]), requests[1..]);
    }
  }

  /** In every reachable database, every statement of `delete_org` and of
      `delete_user`, on its own, leaves no dangling reference. */
  lemma {:induction false} DeletesAlwaysGoThrough(requests: seq<Request>, org: Id, user: Id)
    requires LegalRun(EMPTY, requests)
    requires user in Execute(EMPTY, requests).db.users
    ensures var db := Execute(EMPTY, requests).db;
            var o1 := LogsOfOrgDeleted(db, org);
            var o2 := KeysOfOrgDeleted(o1, org);
            var o3 := UsersDeleted(o2, UsersOf(o2, org));
            var o4 := OrgDeleted(o3, org);
            NoDangling(db) && NoDangling(o1) && NoDangling(o2) && NoDangling(o3) && NoDangling(o4)
    ensures var db := Execute(EMPTY, requests).db;
            var u1 := UserNullified(db, user);
            var u2 := KeysNullified(u1, KeysBy(u1, user));
            var u3 := KeysDeleted(u2, KeysBy(u2, user));
            var u4 := UsersDeleted(u3, {user});
            NoDangling(u1) && NoDangling(u2) && NoDangling(u3) && NoDangling(u4)
  {
    ExecuteKeeps(EMPTY, requests);
    var db := Execute(EMPTY, requests).db;
    OwnedIsEnclosed(db, org);
    OrgStatements(db, org);
    UserStatements(db, user);
  }

  function OfOrg(org: Id): Log -> bool {
    (l: Log) => l.org == org
  }

  lemma {:induction false} KeepOther(logs: seq<Log>, org: Id, other: Id)
    requires org != other
    ensures Keep(OfOrg(other), Keep(OtherOrg(org), logs)) == Keep(OfOrg(other), logs)
  {
    if logs != [] {
      KeepOther(logs[1..], org, other);
      var rest := Keep(OtherOrg(org), logs[1..]);
      assert ([logs[0]] + rest)[1..] == rest;
      assert [] + rest == rest;
    }
  }

  /** Deleting an organisation removes every trace of it and no row of another. */
  lemma {:induction false} DeleteOrgIsExact(requests: seq<Request>, org: Id, other: Id)
    requires LegalRun(EMPTY, requests) && org != other
    ensures var db := Execute(EMPTY, requests).db;
            var after := WithoutOrg(db, org);
            && org !in after.orgs && (other in after.orgs <==> other in db.orgs)
            && (forall u :: u in after.users <==> u in db.users && db.users[u].org != org)
            && (forall u :: u in after.users ==> after.users[u] == db.users[u])
            && (forall k :: k in after.keys <==> k in db.keys && db.keys[k].org != org)
            && (forall k :: k in after.keys ==> after.keys[k] == db.keys[k])
            && Keep(OfOrg(other), after.logs) == Keep(OfOrg(other), db.logs)
            && (forall l :: l in after.logs ==> l.org != org)
            && (forall c :: c in after.conversations <==>
                  c in db.conversations && db.conversations[c] !in UsersOf(db, org))
            && (forall c :: c in after.conversations ==>
                  after.conversations[c] == db.conversations[c])
            && (forall m :: m in after.messages <==>
                  && m in db.messages && db.messages[m].user !in UsersOf(db, org)
                  && db.messages[m].conversation in after.conversations)
            && (forall m :: m in after.messages ==> after.messages[m] == db.messages[m])
  {
    ExecuteKeeps(EMPTY, requests);
    var db := Execute(EMPTY, requests).db;
    KeepOther(db.logs, org, other);
    KeepIs(OtherOrg(org), db.logs);
  }

  /** In every reachable database, whoever reaches a user can delete them, and what goes
      with them is theirs: of the conversations and messages exactly their own. */
  lemma {:induction false} DeleteUserIsExact(requests: seq<Request>, caller: Claim, user: Id)
    requires LegalRun(EMPTY, requests)
    ensures var db := Execute(EMPTY, requests).db;
            var after := Stored(db, DeleteUser(caller, user));
            if user in db.users
               && (caller.role == "platform_admin" || db.users[user].org == caller.org) then
              && UserGone(db, after, user)
              && (forall m :: m in db.messages ==>
                    && db.messages[m].conversation in db.conversations
                    && (db.messages[m].user == user
                        <==> db.conversations[db.messages[m].conversation] == user))
            else after == db
  {
    ExecuteKeeps(EMPTY, requests);
    var db := Execute(EMPTY, requests).db;
    WithoutUserIsGone(db, user);
    MessagesAreOwn(db, user);
    UserRequested(db, caller, user);
    hide *;
  }

  lemma {:induction false} UserRequested(db: Db, caller: Claim, user: Id)
    ensures Stored(db, DeleteUser(caller, user))
         == if user in db.users
               && (caller.role == "platform_admin" || db.users[user].org == caller.org)
            then WithoutUser(db, user) else db
  {
    hide WithoutUser;
  }

  lemma {:induction false} MessagesAreOwn(db: Db, user: Id)
    requires NoDangling(db) && Owned(db)
    ensures forall m :: m in db.messages ==>
              && db.messages[m].conversation in db.conversations
              && (db.messages[m].user == user
                  <==> db.conversations[db.messages[m].conversation] == user)
  {
  }

  /** Conversations are deleted, and messages from a position on, by their user alone: of
      the messages exactly those, and of everything else nothing. */
  lemma {:induction false} ConversationDeletesAreExact(db: Db, caller: Claim, conversation: Id,
        gone: set<Id>)
    ensures var own := conversation in db.conversations
                       && db.conversations[conversation] == caller.user;
            var whole := Stored(db, DeleteConversation(caller, conversation));
            var some := Stored(db, DeleteMessages(caller, conversation, gone));
            && whole == db.(conversations := whole.conversations, messages := whole.messages)
            && some == db.(messages := some.messages)
            && (forall c :: c in whole.conversations
                            <==> c in db.conversations && !(own && c == conversation))
            && (forall c :: c in whole.conversations ==>
                  whole.conversations[c] == db.conversations[c])
            && (forall m :: m in whole.messages <==>
                  m in db.messages && !(own && db.messages[m].conversation == conversation))
            && (forall m :: m in whole.messages ==> whole.messages[m] == db.messages[m])
            && (forall m :: m in some.messages <==>
                  m in db.messages
                  && !(own && m in gone && db.messages[m].conversation == conversation))
            && (forall m :: m in some.messages ==> some.messages[m] == db.messages[m])
  {
  }

  /** In every reachable database, a login is issued a claim of the user's own organisation
      and role, and an active key one of its creator's organisation, as an operator; an
      account or an active key that is not there is issued none. */
  lemma {:induction false} IssuedIsExact(requests: seq<Request>, user: Id, key: Id)
    requires LegalRun(EMPTY, requests)
    ensures var db := Execute(EMPTY, requests).db;
            && (Issued(db, LogIn(user)) != {} <==> user in db.users)
            && (forall c | c in Issued(db, LogIn(user)) ::
                  c == Claim(user, db.users[user].org, db.users[user].role, None))
            && (Issued(db, UseKey(key)) != {} <==> key in db.keys && db.keys[key].active)
            && (forall c | c in Issued(db, UseKey(key)) ::
                  c.user in db.users && c.user == db.keys[key].creator
                  && c == Claim(c.user, db.users[c.user].org, "operator", Some(key)))
  {
    ExecuteKeeps(EMPTY, requests);
    hide Execute, LegalRun;
  }

  /** Whether the row a request inserts refers to nothing that is not there. */
  predicate Insertable(db: Db, request: Request) {
    match request
    case AddUser(_, org, _) => org in db.orgs
    case LogUsage(caller, _, _, _) =>
      && caller.org in db.orgs && caller.user in db.users
      && (caller.key.Some? ==> caller.key.value in db.keys)
    case StartConversation(caller, _) => caller.user in db.users
    case AddMessage(caller, conversation, _) =>
      && caller.user in db.users && conversation in db.conversations
      && db.conversations[conversation] == caller.user
    case _ => false
  }

  /** What a request inserts, just when it can be: a log of the claim's organisation, user
      and key whose total is the sum of its tokens, a user of the organisation, and a
      conversation or message of the caller's. */
  lemma {:induction false} InsertsAreExact(db: Db, request: Request)
    requires NoDangling(db)
    requires request.LogUsage? || request.StartConversation? || request.AddMessage?
             || request.AddUser?
    requires request.AddUser? ==> request.user !in db.users
    requires request.StartConversation? ==> request.conversation !in db.conversations
    ensures Stored(db, request)
         == if !Insertable(db, request) then db
            else match request
                 case AddUser(user, org, role) => db.(users := db.users[user := User(org, role)])
                 case LogUsage(caller, p, c, at) =>
                   db.(logs := db.logs + [Log(caller.org, Some(caller.user), caller.key,
                                              p, c, p + c, at)])
                 case StartConversation(caller, c) =>
                   db.(conversations := db.conversations[c := caller.user])
                 case AddMessage(caller, c, m) =>
                   db.(messages := db.messages[m := ChatMessage(c, caller.user)])
  {
    match request
    case AddUser(user, org, role) => UserInserted(db, user, User(org, role));
    case LogUsage(caller, p, c, at) => LogInserted(db, Entry(caller, p, c, at));
    case StartConversation(caller, c) => ConversationInserted(db, c, caller.user);
    case AddMessage(caller, c, m) =>
      if c in db.conversations && db.conversations[c] == caller.user {
        MessageInserted(db, m, ChatMessage(c, caller.user));
      }
    hide NoDangling;
  }

  lemma {:induction false} UserInserted(db: Db, user: Id, row: User)
    requires NoDangling(db) && user !in db.users
    ensures NoDangling(db.(users := db.users[user := row])) <==> row.org in db.orgs
  {
    var after := db.(users := db.users[user := row]);
    forall i | 0 <= i < |db.logs| ensures LogRefers(after.logs[i], after) {
      assert LogRefers(db.logs[i], db);
    }
    if NoDangling(after) {
      assert after.users[user] == row;
    }
  }

  lemma {:induction false} LogInserted(db: Db, log: Log)
    requires NoDangling(db)
    ensures NoDangling(db.(logs := db.logs + [log])) <==> LogRefers(log, db)
  {
    var after := db.(logs := db.logs + [log]);
    assert after.logs[|db.logs|] == log;
    forall i | 0 <= i < |after.logs|
      ensures LogRefers(after.logs[i], after)
              == if i < |db.logs| then true else LogRefers(log, db)
    {
      if i < |db.logs| {
        assert LogRefers(db.logs[i], db);
      }
    }
  }

  lemma {:induction false} ConversationInserted(db: Db, conversation: Id, user: Id)
    requires NoDangling(db) && conversation !in db.conversations
    ensures NoDangling(db.(conversations := db.conversations[conversation := user]))
            <==> user in db.users
  {
    var after := db.(conversations := db.conversations[conversation := user]);
    forall i | 0 <= i < |db.logs| ensures LogRefers(after.logs[i], after) {
      assert LogRefers(db.logs[i], db);
    }
    if NoDangling(after) {
      assert after.conversations[conversation] == user;
    }
  }

  lemma {:induction false} MessageInserted(db: Db, message: Id, row: ChatMessage)
    requires NoDangling(db)
    ensures NoDangling(db.(messages := db.messages[message := row]))
            <==> row.conversation in db.conversations && row.user in db.users
  {
    var after := db.(messages := db.messages[message := row]);
    forall i | 0 <= i < |db.logs| ensures LogRefers(after.logs[i], after) {
      assert LogRefers(db.logs[i], db);
    }
    if NoDangling(after) {
      assert after.messages[message] == row;
    }
  }

  /** Without the ownership invariant the same statements can be refused, although
      nothing dangles: here a key of one organisation was created by a user of another,
      and the statement that deletes the users is refused. */
  lemma {:induction false} OwnershipIsNeeded()
    ensures var db := Db({"a", "b"}, map["u" := User("a", "viewer")],
                         map["k" := Key("b", "u", "d", true)], [], map[], map[]);
            && NoDangling(db) && !Owned(db) && !Enclosed(db, "a")
            && var s2 := KeysOfOrgDeleted(LogsOfOrgDeleted(db, "a"), "a");
               NoDangling(s2) && !NoDangling(UsersDeleted(s2, UsersOf(s2, "a")))
  {
    var db := Db({"a", "b"}, map["u" := User("a", "viewer")],
                 map["k" := Key("b", "u", "d", true)], [], map[], map[]);
    assert "k" in db.keys && "u" in db.users && "a" != "b";
    assert db.keys["k"].org == "b" && db.keys["k"].creator == "u" && db.users["u"].org == "a";
    var s2 := KeysOfOrgDeleted(LogsOfOrgDeleted(db, "a"), "a");
    assert "k" in s2.keys && "u" in UsersOf(s2, "a");
    var s3 := UsersDeleted(s2, UsersOf(s2, "a"));
    assert "k" in s3.keys && s3.keys["k"].creator !in s3.users;
  }

  // ----------------------------------------------------------- tenant isolation

  /** Nothing that belongs to an organisation differs between two databases. */
  ghost predicate SameFor(org: Id, before: Db, after: Db) {
    && (forall u | u in before.users && before.users[u].org == org ::
          u in after.users && after.users[u] == before.users[u])
    && (forall k | k in before.keys && before.keys[k].org == org ::
          k in after.keys && after.keys[k] == before.keys[k])
    && (forall c | c in before.conversations && before.conversations[c] in before.users
            && before.users[before.conversations[c]].org == org ::
          c in after.conversations && after.conversations[c] == before.conversations[c])
    && (forall m | m in before.messages && before.messages[m].user in before.users
            && before.users[before.messages[m].user].org == org ::
          m in after.messages && after.messages[m] == before.messages[m])
    && |after.logs| == |before.logs|
    && (forall i | 0 <= i < |before.logs| && before.logs[i].org == org ::
          after.logs[i] == before.logs[i])
  }

  lemma {:induction false} UserDeletedInside(db: Db, user: Id, other: Id)
    requires NoDangling(db) && Owned(db) && user in db.users && db.users[user].org != other
    ensures SameFor(other, db, WithoutUser(db, user))
  {
    var after := WithoutUser(db, user);
    forall i | 0 <= i < |db.logs| && db.logs[i].org == other ensures after.logs[i] == db.logs[i] {
      assert LogOwned(db.logs[i], db) && LogRefers(db.logs[i], db);
    }
  }

  lemma {:induction false} KeyRevokedInside(db: Db, key: Id, other: Id)
    requires NoDangling(db) && Owned(db) && key in db.keys && db.keys[key].org != other
    ensures SameFor(other, db, KeyRevoked(db, key))
  {
    var after := KeyRevoked(db, key);
    forall i | 0 <= i < |db.logs| && db.logs[i].org == other ensures after.logs[i] == db.logs[i] {
      assert LogOwned(db.logs[i], db) && LogRefers(db.logs[i], db);
    }
  }

  lemma {:induction false} DigestChangedInside(db: Db, key: Id, digest: string, other: Id)
    requires key in db.keys && db.keys[key].org != other
    ensures SameFor(other, db, WithKey(db, key, db.keys[key].(digest := digest)))
  {
  }

  lemma {:induction false} SameForItself(db: Db, org: Id)
    ensures SameFor(org, db, db)
  {
  }

  lemma {:induction false} StoredInside(db: Db, request: Request, other: Id)
    requires NoDangling(db) && Owned(db)
    requires request.DeleteUser? || request.RevokeKey? || request.RotateKey?
    requires request.caller.role != "platform_admin" && request.caller.org != other
    ensures SameFor(other, db, Stored(db, request))
  {
    hide SameFor, WithoutUser, KeyRevoked, NoDangling, Owned;
    SameForItself(db, other);
    match request
    case DeleteUser(caller, user) =>
      if Reaches(caller, db, user) {
        UserDeletedInside(db, user, other);
      }
    case RevokeKey(caller, key) =>
      if ReachesKey(caller, db, key) {
        KeyRevokedInside(db, key, other);
      }
    case RotateKey(caller, key, digest) =>
      if ReachesKey(caller, db, key) {
        DigestChangedInside(db, key, digest, other);
      }
  }

  /** In every reachable database, whoever is not a platform admin can delete users and
      rotate, revoke or delete keys without touching anything of another organisation. */
  lemma {:induction false} DeletesStayInside(requests: seq<Request>, request: Request, other: Id)
    requires LegalRun(EMPTY, requests)
    requires request.DeleteUser? || request.RevokeKey? || request.RotateKey?
    requires request.caller.role != "platform_admin" && request.caller.org != other
    ensures var db := Execute(EMPTY, requests).db;
            SameFor(other, db, Stored(db, request))
  {
    ExecuteKeeps(EMPTY, requests);
    StoredInside(Execute(EMPTY, requests).db, request, other);
  }
}
