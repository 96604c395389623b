/** The tenant database: organisations, users, keys, usage logs and conversations,
    with their foreign keys and the deletes written by hand around them. */
module Tenant {
  import opened Text

  type Id = string

  datatype User = User(org: Id, role: string)

  datatype Key = Key(org: Id, creator: Id, digest: string, active: bool)

  datatype Log = Log(org: Id, user: Option<Id>, key: Option<Id>,
                     prompt: int, completion: int, total: int, created: int)

  datatype ChatMessage = ChatMessage(conversation: Id, user: Id)

  /** `conversations` maps each conversation to its user. */
  datatype Db = Db(
    orgs: set<Id>,
    users: map<Id, User>,
    keys: map<Id, Key>,
    logs: seq<Log>,
    conversations: map<Id, Id>,
    messages: map<Id, ChatMessage>)

  // ------------------------------------------------------------- foreign keys

  predicate LogRefers(log: Log, db: Db) {
    && log.org in db.orgs
    && (log.user.Some? ==> log.user.value in db.users)
    && (log.key.Some? ==> log.key.value in db.keys)
  }

  /** No row refers to a row that is not there. */
  predicate NoDangling(db: Db) {
    && (forall u | u in db.users :: db.users[u].org in db.orgs)
    && (forall k | k in db.keys :: db.keys[k].org in db.orgs && db.keys[k].creator in db.users)
    && (forall i | 0 <= i < |db.logs| :: LogRefers(db.logs[i], db))
    && (forall c | c in db.conversations :: db.conversations[c] in db.users)
    && (forall m | m in db.messages ::
          && db.messages[m].conversation in db.conversations
          && db.messages[m].user in db.users)
  }

  /** What the foreign keys do not say: everything stays within one organisation, and a
      message is written by the user of its conversation. */
  ghost predicate LogOwned(log: Log, db: Db) {
    && (log.user.Some? && log.user.value in db.users ==>
          db.users[log.user.value].org == log.org)
    && (log.key.Some? && log.key.value in db.keys ==> db.keys[log.key.value].org == log.org)
  }

  ghost predicate Owned(db: Db) {
    && (forall k | k in db.keys && db.keys[k].creator in db.users ::
          db.keys[k].org == db.users[db.keys[k].creator].org)
    && (forall i | 0 <= i < |db.logs| :: LogOwned(db.logs[i], db))
    && (forall m | m in db.messages && db.messages[m].conversation in db.conversations ::
          db.conversations[db.messages[m].conversation] == db.messages[m].user)
  }

  // --------------------------------------------------------------- statements

  function Keep(keep: Log -> bool, logs: seq<Log>): seq<Log> {
    if logs == [] then []
    else (if keep(logs[0]) then [logs[0]] else []) + Keep(keep, logs[1..])
  }

  lemma {:induction false} KeepIs(keep: Log -> bool, logs: seq<Log>)
    ensures forall l :: l in Keep(keep, logs) <==> l in logs && keep(l)
  {
    if logs != [] {
      KeepIs(keep, logs[1..]);
    }
  }

  function OtherOrg(org: Id): Log -> bool {
    (l: Log) => l.org != org
  }

  /** `DELETE FROM usage_logs WHERE org_id = org`. */
  function LogsOfOrgDeleted(db: Db, org: Id): Db {
    db.(logs := Keep(OtherOrg(org), db.logs))
  }

  /** `DELETE FROM api_keys WHERE org_id = org`. */
  function KeysOfOrgDeleted(db: Db, org: Id): Db {
    db.(keys := map k | k in db.keys && db.keys[k].org != org :: db.keys[k])
  }

  /** Users deleted, with the cascade to their conversations and messages. */
  function UsersDeleted(db: Db, gone: set<Id>): Db {
    var conversations := map c | c in db.conversations && db.conversations[c] !in gone
                           :: db.conversations[c];
    var messages := map m | m in db.messages && db.messages[m].user !in gone
                            && !(db.messages[m].conversation in db.conversations
                                 && db.conversations[db.messages[m].conversation] in gone)
                      :: db.messages[m];
    db.(users := db.users - gone, conversations := conversations, messages := messages)
  }

  function UsersOf(db: Db, org: Id): set<Id> {
    set u | u in db.users && db.users[u].org == org
  }

  function OrgDeleted(db: Db, org: Id): Db {
    db.(orgs := db.orgs - {org})
  }

  function NullifyUser(log: Log, user: Id): Log {
    if log.user == Some(user) then log.(user := None) else log
  }

  function NullifyKey(log: Log, keys: set<Id>): Log {
    if log.key.Some? && log.key.value in keys then log.(key := None) else log
  }

  /** `UPDATE usage_logs SET user_id = NULL WHERE user_id = user`. */
  function UserNullified(db: Db, user: Id): Db {
    db.(logs := seq(|db.logs|, i requires 0 <= i < |db.logs| => NullifyUser(db.logs[i], user)))
  }

  /** `UPDATE usage_logs SET api_key_id = NULL WHERE api_key_id IN keys`. */
  function KeysNullified(db: Db, keys: set<Id>): Db {
    db.(logs := seq(|db.logs|, i requires 0 <= i < |db.logs| => NullifyKey(db.logs[i], keys)))
  }

  function KeysBy(db: Db, user: Id): set<Id> {
    set k | k in db.keys && db.keys[k].creator == user
  }

  function KeysDeleted(db: Db, keys: set<Id>): Db {
    db.(keys := db.keys - keys)
  }

  // ---------------------------------------------------------------- endpoints

  datatype Reply = Done | NotFound | Refused

  /** The caller of an endpoint, as its token or key says: the organisation is the
      one written in the token, not looked up. */
  datatype Claim = Claim(user: Id, org: Id, role: string, key: Option<Id>)

  class Database {
    var db: Db

    constructor ()
      ensures db == Db({}, map[], map[], [], map[], map[])
    {
      db := Db({}, map[], map[], [], map[], map[]);
    }

    /** Runs one statement of the open transaction; the database refuses it when it
        would leave a dangling reference. */
    method Run(statement: Db, from: Db) returns (now: Db, refused: bool)
      ensures refused <==> !NoDangling(statement)
      ensures now == if refused then from else statement
    {
      refused := !NoDangling(statement);
      now := if refused then from else statement;
    }

    /** `delete_org`: four statements in this order, committed together. */
    method DeleteOrg(org: Id) returns (reply: Reply)
      requires NoDangling(db)
      modifies this
      ensures NoDangling(db)
      ensures reply == NotFound <==> org !in old(db).orgs
      ensures reply == Done <==> org in old(db).orgs && Enclosed(old(db), org)
      ensures db == if reply == Done then WithoutOrg(old(db), org) else old(db)
    {
      if org !in db.orgs {
        return NotFound;
      }
      OrgStatements(db, org);
      var now, refused := Run(LogsOfOrgDeleted(db, org), db);
      if !refused {
        now, refused := Run(KeysOfOrgDeleted(now, org), now);
      }
      if !refused {
        now, refused := Run(UsersDeleted(now, UsersOf(now, org)), now);
      }
      if !refused {
        now, refused := Run(OrgDeleted(now, org), now);
      }
      if refused {
        return Refused;
      }
      db := now;
      reply := Done;
    }

    /** `delete_user`: nullify, then delete. Organisation admins reach only their own
        organisation's users. */
    method DeleteUser(caller: Claim, user: Id) returns (reply: Reply)
      requires NoDangling(db)
      modifies this
      ensures NoDangling(db)
      ensures reply == Done <==>
              && user in old(db).users
              && (caller.role == "platform_admin" || old(db).users[user].org == caller.org)
      ensures reply == Done || reply == NotFound
      ensures db == if reply == Done then WithoutUser(old(db), user) else old(db)
      ensures reply == Done ==> UserGone(old(db), db, user)
    {
      if !Reaches(caller, db, user) {
        return NotFound;
      }
      UserStatements(db, user);
      WithoutUserIsGone(db, user);
      var now, refused := Run(UserNullified(db, user), db);
      var keys := KeysBy(now, user);
      if keys != {} {
        now, refused := Run(KeysNullified(now, keys), now);
      } else {
        NoKeysNullified(now);
      }
      now, refused := Run(KeysDeleted(now, KeysBy(now, user)), now);
      now, refused := Run(UsersDeleted(now, {user}), now);
      db := now;
      reply := Done;
    }

    /** `create_api_key`: the key belongs to the organisation of the caller's claim; the
        insert is refused when that organisation or the caller is gone. */
    method CreateKey(caller: Claim, key: Id, digest: string) returns (reply: Reply)
      requires NoDangling(db) && key !in db.keys
      modifies this
      ensures NoDangling(db)
      ensures reply == Done <==> caller.org in old(db).orgs && caller.user in old(db).users
      ensures reply != Done ==> reply == Refused && db == old(db)
      ensures reply == Done ==>
                db == old(db).(keys := old(db).keys[key := Key(caller.org, caller.user, digest,
                                                               true)])
    {
      var row := Key(caller.org, caller.user, digest, true);
      KeyStored(db, key, row);
      var now, refused := Run(WithKey(db, key, row), db);
      if refused {
        return Refused;
      }
      db := now;
      reply := Done;
    }

    /** `rotate_api_key`: only the digest changes. */
    method RotateKey(caller: Claim, key: Id, digest: string) returns (reply: Reply)
      requires NoDangling(db)
      modifies this
      ensures NoDangling(db)
      ensures reply == Done <==>
              && key in old(db).keys
              && (caller.role == "platform_admin" || old(db).keys[key].org == caller.org)
              && (caller.role == "operator" ==> old(db).keys[key].creator == caller.user)
      ensures reply == Done || reply == NotFound
      ensures reply == Done ==>
                var row := old(db).keys[key];
                db == old(db).(keys := old(db).keys[key := Key(row.org, row.creator, digest,
                                                               row.active)])
      ensures reply != Done ==> db == old(db)
    {
      if !ReachesKey(caller, db, key) {
        return NotFound;
      }
      KeyStored(db, key, db.keys[key].(digest := digest));
      db := WithKey(db, key, db.keys[key].(digest := digest));
      reply := Done;
    }

    /** `revoke_api_key`: the first call disables the key, the second deletes it. */
    method RevokeKey(caller: Claim, key: Id) returns (reply: Reply)
      requires NoDangling(db)
      modifies this
      ensures NoDangling(db)
      ensures reply == Done <==>
              && key in old(db).keys
              && (caller.role == "platform_admin" || old(db).keys[key].org == caller.org)
              && (caller.role == "operator" ==> old(db).keys[key].creator == caller.user)
      ensures reply == Done || reply == NotFound
      ensures db == if reply == Done then KeyRevoked(old(db), key) else old(db)
      ensures reply == Done ==>
                if old(db).keys[key].active then KeyOff(old(db), db, key)
                else KeyGone(old(db), db, key)
    {
      if !ReachesKey(caller, db, key) {
        return NotFound;
      }
      KeyStatements(db, key);
      RevokedIsOffOrGone(db, key);
      if db.keys[key].active {
        db := WithKey(db, key, db.keys[key].(active := false));
      } else {
        var now, refused := Run(KeysNullified(db, {key}), db);
        now, refused := Run(KeysDeleted(now, {key}), now);
        db := now;
      }
      reply := Done;
    }
  }

  predicate Reaches(caller: Claim, db: Db, user: Id) {
    user in db.users && (caller.role == "platform_admin" || db.users[user].org == caller.org)
  }

  predicate ReachesKey(caller: Claim, db: Db, key: Id) {
    && key in db.keys
    && (caller.role == "platform_admin" || db.keys[key].org == caller.org)
    && (caller.role == "operator" ==> db.keys[key].creator == caller.user)
  }

  /** The database after `delete_org`, and after `delete_user`. */
  function WithoutOrg(db: Db, org: Id): Db {
    var db2 := KeysOfOrgDeleted(LogsOfOrgDeleted(db, org), org);
    OrgDeleted(UsersDeleted(db2, UsersOf(db2, org)), org)
  }

  function WithoutUser(db: Db, user: Id): Db {
    var db2 := KeysNullified(UserNullified(db, user), KeysBy(db, user));
    UsersDeleted(KeysDeleted(db2, KeysBy(db, user)), {user})
  }

  function WithKey(db: Db, key: Id, row: Key): Db {
    db.(keys := db.keys[key := row])
  }

  function KeyRevoked(db: Db, key: Id): Db
    requires key in db.keys
  {
    if db.keys[key].active then WithKey(db, key, db.keys[key].(active := false))
    else KeysDeleted(KeysNullified(db, {key}), {key})
  }

  // ----------------------------------------------- what the deletes leave behind

  /** A log whose user, or whose key, is no longer told. */
  function Cleared(log: Log, user: bool, key: bool): Log {
    Log(log.org, if user then None else log.user, if key then None else log.key,
        log.prompt, log.completion, log.total, log.created)
  }

  ghost predicate LogsCleared(before: Db, after: Db, user: Id) {
    && |after.logs| == |before.logs|
    && forall i | 0 <= i < |before.logs| ::
         var log := before.logs[i];
         after.logs[i] == Cleared(log, log.user == Some(user),
                                  log.key.Some? && log.key.value in before.keys
                                  && before.keys[log.key.value].creator == user)
  }

  /** The user is gone, with exactly the keys they created, their conversations and the
      messages in these or written by them. Every log is kept, and only the references to
      the user and to these keys are cleared; every other row is what it was. */
  ghost predicate UserGone(before: Db, after: Db, user: Id) {
    && after.orgs == before.orgs
    && (forall u :: u in after.users <==> u in before.users && u != user)
    && (forall u | u in after.users :: after.users[u] == before.users[u])
    && (forall k :: k in after.keys <==> k in before.keys && before.keys[k].creator != user)
    && (forall k | k in after.keys :: after.keys[k] == before.keys[k])
    && LogsCleared(before, after, user)
    && (forall c :: c in after.conversations <==>
          c in before.conversations && before.conversations[c] != user)
    && (forall c | c in after.conversations ::
          after.conversations[c] == before.conversations[c])
    && (forall m :: m in after.messages <==>
          && m in before.messages && before.messages[m].user != user
          && (before.messages[m].conversation in before.conversations ==>
                before.conversations[before.messages[m].conversation] != user))
    && (forall m | m in after.messages :: after.messages[m] == before.messages[m])
  }

  /** The key is no longer active, and nothing else changed. */
  ghost predicate KeyOff(before: Db, after: Db, key: Id)
    requires key in before.keys
  {
    && after == before.(keys := after.keys)
    && after.keys.Keys == before.keys.Keys
    && (forall k | k in before.keys && k != key :: after.keys[k] == before.keys[k])
    && var row := before.keys[key];
       after.keys[key] == Key(row.org, row.creator, row.digest, false)
  }

  /** The key is gone, every log is kept with the references to it cleared, and nothing
      else changed. */
  ghost predicate KeyGone(before: Db, after: Db, key: Id) {
    && after == before.(keys := after.keys, logs := after.logs)
    && (forall k :: k in after.keys <==> k in before.keys && k != key)
    && (forall k | k in after.keys :: after.keys[k] == before.keys[k])
    && |after.logs| == |before.logs|
    && (forall i | 0 <= i < |before.logs| ::
          after.logs[i] == Cleared(before.logs[i], false, before.logs[i].key == Some(key)))
  }

  lemma {:induction false} LogsAreCleared(db: Db, user: Id)
    ensures LogsCleared(db, WithoutUser(db, user), user)
  {
    var after := WithoutUser(db, user);
    forall i | 0 <= i < |db.logs|
      ensures after.logs[i] == NullifyKey(NullifyUser(db.logs[i], user), KeysBy(db, user))
    {
    }
  }

  lemma {:induction false} WithoutUserIsGone(db: Db, user: Id)
    ensures UserGone(db, WithoutUser(db, user), user)
  {
    LogsAreCleared(db, user);
    hide LogsCleared, NullifyKey, NullifyUser;
  }

  lemma {:induction false} RevokedIsOffOrGone(db: Db, key: Id)
    requires key in db.keys
    ensures if db.keys[key].active then KeyOff(db, KeyRevoked(db, key), key)
            else KeyGone(db, KeyRevoked(db, key), key)
  {
  }

  // ------------------------------------------- every statement keeps the keys

  predicate LogAside(log: Log, db: Db, org: Id) {
    log.org != org ==>
      && (log.user.Some? && log.user.value in db.users ==> db.users[log.user.value].org != org)
      && (log.key.Some? && log.key.value in db.keys ==> db.keys[log.key.value].org != org)
  }

  /** No row of another organisation refers to a user or a key of this one. */
  predicate Enclosed(db: Db, org: Id) {
    && (forall k | k in db.keys && db.keys[k].org != org && db.keys[k].creator in db.users ::
          db.users[db.keys[k].creator].org != org)
    && (forall i | 0 <= i < |db.logs| :: LogAside(db.logs[i], db, org))
  }

  lemma {:induction false} InLogs(db: Db, l: Log)
    requires NoDangling(db) && l in db.logs
    ensures LogRefers(l, db)
  {
  }

  lemma {:induction false} AllLogsRefer(db: Db)
    requires forall l :: l in db.logs ==> LogRefers(l, db)
    ensures forall i | 0 <= i < |db.logs| :: LogRefers(db.logs[i], db)
  {
    forall i | 0 <= i < |db.logs| ensures LogRefers(db.logs[i], db) {
      assert db.logs[i] in db.logs;
    }
  }

  lemma {:induction false} OrgStatementOne(db: Db, org: Id)
    requires NoDangling(db)
    ensures NoDangling(LogsOfOrgDeleted(db, org))
  {
    var s1 := LogsOfOrgDeleted(db, org);
    KeepIs(OtherOrg(org), db.logs);
    forall l | l in s1.logs ensures LogRefers(l, s1) {
      InLogs(db, l);
      assert LogRefers(l, db);
    }
    AllLogsRefer(s1);
  }

  lemma {:induction false} OrgStatementTwo(db: Db, org: Id)
    requires NoDangling(db)
    ensures NoDangling(KeysOfOrgDeleted(LogsOfOrgDeleted(db, org), org)) <==>
            forall i | 0 <= i < |db.logs| ::
              db.logs[i].org != org && db.logs[i].key.Some? ==>
                db.keys[db.logs[i].key.value].org != org
  {
    var s1 := LogsOfOrgDeleted(db, org);
    var s2 := KeysOfOrgDeleted(s1, org);
    OrgStatementOne(db, org);
    KeepIs(OtherOrg(org), db.logs);
    if forall i | 0 <= i < |db.logs| ::
         db.logs[i].org != org && db.logs[i].key.Some? ==>
           db.keys[db.logs[i].key.value].org != org {
      forall l | l in s2.logs ensures LogRefers(l, s2) {
        InLogs(s1, l);
        var i :| 0 <= i < |db.logs| && db.logs[i] == l;
      }
      AllLogsRefer(s2);
    } else {
      var i :| 0 <= i < |db.logs| && db.logs[i].org != org && db.logs[i].key.Some?
               && db.keys[db.logs[i].key.value].org == org;
      assert db.logs[i] in s2.logs;
      if NoDangling(s2) {
        InLogs(s2, db.logs[i]);
      }
    }
  }

  lemma {:induction false} OrgStatementThree(db: Db, org: Id)
    requires NoDangling(db)
    requires NoDangling(KeysOfOrgDeleted(LogsOfOrgDeleted(db, org), org))
    ensures var s2 := KeysOfOrgDeleted(LogsOfOrgDeleted(db, org), org);
            NoDangling(UsersDeleted(s2, UsersOf(s2, org))) <==> Enclosed(db, org)
  {
    var s2 := KeysOfOrgDeleted(LogsOfOrgDeleted(db, org), org);
    var s3 := UsersDeleted(s2, UsersOf(s2, org));
    OrgStatementTwo(db, org);
    KeepIs(OtherOrg(org), db.logs);
    if Enclosed(db, org) {
      forall l | l in s3.logs ensures LogRefers(l, s3) {
        InLogs(s2, l);
        var i :| 0 <= i < |db.logs| && db.logs[i] == l;
        assert LogAside(db.logs[i], db, org);
      }
      AllLogsRefer(s3);
    } else if NoDangling(s3) {
      forall k | k in db.keys && db.keys[k].org != org && db.keys[k].creator in db.users
        ensures db.users[db.keys[k].creator].org != org
      {
        assert k in s3.keys;
      }
      forall i | 0 <= i < |db.logs| ensures LogAside(db.logs[i], db, org) {
        if db.logs[i].org != org {
          InLogs(s3, db.logs[i]);
        }
      }
    }
  }

  lemma {:induction false} OrgStatementFour(db: Db, org: Id)
    requires NoDangling(db)
    requires var s2 := KeysOfOrgDeleted(LogsOfOrgDeleted(db, org), org);
             NoDangling(UsersDeleted(s2, UsersOf(s2, org)))
    ensures NoDangling(WithoutOrg(db, org))
  {
    var s2 := KeysOfOrgDeleted(LogsOfOrgDeleted(db, org), org);
    var s3 := UsersDeleted(s2, UsersOf(s2, org));
    var s4 := OrgDeleted(s3, org);
    KeepIs(OtherOrg(org), db.logs);
    forall l | l in s4.logs ensures LogRefers(l, s4) {
      InLogs(s3, l);
    }
    AllLogsRefer(s4);
  }

  /** The four statements of `delete_org`: all are accepted just when no row of
      another organisation refers to this one's users or keys. */
  lemma {:induction false} OrgStatements(db: Db, org: Id)
    requires NoDangling(db)
    ensures var s1 := LogsOfOrgDeleted(db, org);
            var s2 := KeysOfOrgDeleted(s1, org);
            var s3 := UsersDeleted(s2, UsersOf(s2, org));
            && NoDangling(s1)
            && (NoDangling(s2) && NoDangling(s3) <==> Enclosed(db, org))
            && (Enclosed(db, org) ==> NoDangling(WithoutOrg(db, org)))
  {
    var s2 := KeysOfOrgDeleted(LogsOfOrgDeleted(db, org), org);
    OrgStatementOne(db, org);
    OrgStatementTwo(db, org);
    if NoDangling(s2) {
      OrgStatementThree(db, org);
      if Enclosed(db, org) {
        OrgStatementFour(db, org);
      }
    } else {
      var i :| 0 <= i < |db.logs| && db.logs[i].org != org && db.logs[i].key.Some?
               && db.keys[db.logs[i].key.value].org == org;
      assert LogRefers(db.logs[i], db);
      assert !LogAside(db.logs[i], db, org);
    }
  }

  /** Ownership is what makes the order of statements work. */
  lemma {:induction false} OwnedIsEnclosed(db: Db, org: Id)
    requires NoDangling(db) && Owned(db)
    ensures Enclosed(db, org)
  {
    forall i | 0 <= i < |db.logs| ensures LogAside(db.logs[i], db, org) {
      assert LogOwned(db.logs[i], db);
    }
  }

  lemma {:induction false} NullifyKeepsRefs(db: Db, keys: set<Id>)
    requires NoDangling(db)
    ensures NoDangling(KeysNullified(db, keys))
    ensures NoDangling(KeysDeleted(KeysNullified(db, keys), keys))
  {
    var now := KeysDeleted(KeysNullified(db, keys), keys);
    forall i | 0 <= i < |db.logs|
      ensures LogRefers(KeysNullified(db, keys).logs[i], KeysNullified(db, keys))
      ensures LogRefers(now.logs[i], now)
    {
      assert LogRefers(db.logs[i], db);
    }
  }

  lemma {:induction false} NoKeysNullified(db: Db)
    ensures KeysNullified(db, {}) == db
  {
  }

  /** The statements of `delete_user` are accepted in any database. */
  lemma {:induction false} UserStatements(db: Db, user: Id)
    requires NoDangling(db) && user in db.users
    ensures var s1 := UserNullified(db, user);
            var s2 := KeysNullified(s1, KeysBy(db, user));
            var s3 := KeysDeleted(s2, KeysBy(db, user));
            && NoDangling(s1) && NoDangling(s2) && NoDangling(s3)
            && NoDangling(WithoutUser(db, user))
            && KeysBy(s1, user) == KeysBy(s2, user) == KeysBy(db, user)
  {
    var s1 := UserNullified(db, user);
    forall i | 0 <= i < |s1.logs| ensures LogRefers(s1.logs[i], s1) {
      assert LogRefers(db.logs[i], db);
    }
    NullifyKeepsRefs(s1, KeysBy(db, user));
    var s3 := KeysDeleted(KeysNullified(s1, KeysBy(db, user)), KeysBy(db, user));
    var s4 := UsersDeleted(s3, {user});
    forall i | 0 <= i < |s4.logs| ensures LogRefers(s4.logs[i], s4) {
      assert LogRefers(s3.logs[i], s3);
      assert s1.logs[i].user != Some(user);
    }
  }

  /** A key can be stored just when its organisation and its creator are there. */
  lemma {:induction false} KeyStored(db: Db, key: Id, row: Key)
    requires NoDangling(db)
    ensures NoDangling(WithKey(db, key, row)) <==> row.org in db.orgs && row.creator in db.users
  {
    var after := WithKey(db, key, row);
    forall i | 0 <= i < |db.logs| ensures LogRefers(after.logs[i], after) {
      assert LogRefers(db.logs[i], db);
    }
    if NoDangling(after) {
      assert after.keys[key] == row;
    }
  }

  lemma {:induction false} KeyStatements(db: Db, key: Id)
    requires NoDangling(db) && key in db.keys
    ensures NoDangling(KeysNullified(db, {key}))
    ensures NoDangling(KeyRevoked(db, key))
  {
    NullifyKeepsRefs(db, {key});
    var now := KeyRevoked(db, key);
    if db.keys[key].active {
      forall i | 0 <= i < |now.logs| ensures LogRefers(now.logs[i], now) {
        assert LogRefers(db.logs[i], db);
      }
    }
  }
}
