/** One-time codes: the table of codes, the session that commits or rolls back, and
    the endpoints that issue, verify and redeem them. */
module Otp {
  import opened Text

  // Times are integers in microseconds.
  const MINUTE := 60_000_000
  const WINDOW := 15 * MINUTE
  const LIFETIME := 5 * MINUTE
  const MAX_ROWS := 3
  const MAX_ATTEMPTS := 5

  /** The hash of a code; hashing is taken to be injective. */
  type Digest = string

  datatype Key = Key(email: string, purpose: string)

  datatype Row = Row(digest: Digest, created: int, expires: int, attempts: int, verified: bool)

  datatype Entry = Entry(key: Key, row: Row)

  type Table = seq<Entry>

  /** Why a request was refused; every one of them is raised to `get_db`. */
  datatype Reason =
    | TooMany | MailFailed | NoCode | LockedOut | Reused | Expired | WrongCode
    | TokenRejected | NoRequest | NeedCode

  datatype Result = Fine | Denied(reason: Reason)

  // ------------------------------------------------------------ the rules

  function NewRow(digest: Digest, now: int): Row {
    Row(digest, now, now + LIFETIME, 0, false)
  }

  /** What trying a code does to a row: nothing; a spent attempt that is committed
      although an error is raised; or a match that is left to the caller's commit. */
  datatype Attempt = Untouched(reason: Reason) | Spent(row: Row, reason: Reason) | Matched(row: Row)

  function TryCode(row: Row, digest: Digest, now: int): Attempt {
    if row.attempts >= MAX_ATTEMPTS then Untouched(LockedOut)
    else if row.verified then Untouched(Reused)
    else
      var tried := row.(attempts := row.attempts + 1);
      if tried.attempts > MAX_ATTEMPTS then Spent(tried, LockedOut)
      else if now > tried.expires then Spent(tried, Expired)
      else if tried.digest != digest then
        Spent(tried, if tried.attempts >= MAX_ATTEMPTS then LockedOut else WrongCode)
      else Matched(tried.(verified := true))
  }

  /** How many codes of this key were created at or after `since`. */
  function CountSince(table: Table, key: Key, since: int): nat {
    if table == [] then 0
    else
      CountSince(table[..|table| - 1], key, since)
      + var last := table[|table| - 1];
        if last.key == key && last.row.created >= since then 1 else 0
  }

  /** The position of this key's row with the latest creation time. */
  function Newest(table: Table, key: Key): (found: Option<nat>)
    ensures found.Some? ==> found.value < |table| && table[found.value].key == key
    ensures found.None? ==> forall i :: 0 <= i < |table| ==> table[i].key != key
  {
    if table == [] then None
    else
      var n := |table| - 1;
      var earlier := Newest(table[..n], key);
      if table[n].key != key then earlier
      else match earlier
           case None => Some(n)
           case Some(i) => if table[i].row.created > table[n].row.created then Some(i) else Some(n)
  }

  function Put(table: Table, i: nat, row: Row): Table
    requires i < |table|
  {
    table[i := table[i].(row := row)]
  }

  function Remove(table: Table, i: nat): Table
    requires i < |table|
  {
    table[..i] + table[i + 1..]
  }

  // -------------------------------------------------------------- requests

  /** `mailed` says whether the message could be sent, `accepted` whether the
      verification token presented with the code is good. */
  datatype Request =
    | Issue(key: Key, digest: Digest, mailed: bool)
    | Verify(key: Key, digest: Digest, accepted: bool)
    | Reset(key: Key, code: Option<Digest>)

  /** The committed table after a request, and what the caller is told. */
  function Handle(table: Table, request: Request, now: int): (Table, Result) {
    match request
    case Issue(key, digest, mailed) =>
      if CountSince(table, key, now - WINDOW) >= MAX_ROWS then (table, Denied(TooMany))
      else if !mailed then (table, Denied(MailFailed))
      else (table + [Entry(key, NewRow(digest, now))], Fine)
    case Verify(key, digest, accepted) => HandleVerify(table, key, digest, accepted, now)
    case Reset(key, code) => HandleReset(table, key, code, now)
  }

  function HandleVerify(table: Table, key: Key, digest: Digest, accepted: bool, now: int)
    : (Table, Result)
  {
    match Newest(table, key)
    case None => (table, Denied(NoCode))
    case Some(i) =>
      match TryCode(table[i].row, digest, now)
      case Untouched(reason) => (table, Denied(reason))
      case Spent(row, reason) => (Put(table, i, row), Denied(reason))
      case Matched(row) =>
        if accepted then (Put(table, i, row), Fine) else (table, Denied(TokenRejected))
  }

  function HandleReset(table: Table, key: Key, code: Option<Digest>, now: int): (Table, Result) {
    match Newest(table, key)
    case None => (table, Denied(NoRequest))
    case Some(i) =>
      if table[i].row.verified then
        if now > table[i].row.expires then (table, Denied(Expired)) else (Remove(table, i), Fine)
      else match code
        case None => (table, Denied(NeedCode))
        case Some(digest) =>
          match TryCode(table[i].row, digest, now)
          case Untouched(reason) => (table, Denied(reason))
          case Spent(row, reason) => (Put(table, i, row), Denied(reason))
          case Matched(_) => (Remove(table, i), Fine)
  }

  // --------------------------------------------------- the database session

  /** The table as committed, and as the open transaction sees it. */
  class Session {
    var committed: Table
    var pending: Table

    constructor ()
      ensures committed == [] && pending == []
    {
      committed, pending := [], [];
    }

    method Commit()
      modifies this
      ensures committed == old(pending) && pending == old(pending)
    {
      committed := pending;
    }

    method Rollback()
      modifies this
      ensures committed == old(committed) && pending == old(committed)
    {
      pending := committed;
    }

    /** What `get_db` does when the endpoint returns or raises. */
    method Close(result: Result)
      modifies this
      ensures committed == (if result.Fine? then old(pending) else old(committed))
      ensures pending == committed
    {
      if result.Fine? {
        Commit();
      } else {
        Rollback();
      }
    }

    /** `store_otp`. */
    method StoreOtp(key: Key, digest: Digest, now: int) returns (result: Result)
      modifies this
      ensures committed == old(committed)
      ensures result == if CountSince(old(pending), key, now - WINDOW) >= MAX_ROWS
                        then Denied(TooMany) else Fine
      ensures pending == old(pending)
                       + if result.Fine? then [Entry(key, NewRow(digest, now))] else []
    {
      var existing := CountSince(pending, key, now - WINDOW);
      if existing >= MAX_ROWS {
        return Denied(TooMany);
      }
      pending := pending + [Entry(key, NewRow(digest, now))];
      result := Fine;
    }

    /** `verify_otp`: a spent attempt is committed before the error is raised. */
    method VerifyOtp(key: Key, digest: Digest, now: int) returns (result: Result)
      modifies this
      ensures match Newest(old(pending), key)
              case None =>
                && result == Denied(NoCode)
                && committed == old(committed) && pending == old(pending)
              case Some(i) =>
                var row := old(pending)[i].row;
                if row.attempts >= 5 || row.verified then
                  && result == Denied(if row.attempts >= 5 then LockedOut else Reused)
                  && committed == old(committed) && pending == old(pending)
                else if now > row.expires || digest != row.digest then
                  && result == Denied(if now > row.expires then Expired
                                      else if row.attempts == 4 then LockedOut else WrongCode)
                  && committed == pending
                  && pending == Put(old(pending), i, row.(attempts := row.attempts + 1))
                else
                  && result == Fine && committed == old(committed)
                  && pending == Put(old(pending), i,
                                    row.(attempts := row.attempts + 1, verified := true))
    {
      var found := Newest(pending, key);
      if found.None? {
        return Denied(NoCode);
      }
      var i := found.value;
      var record := pending[i].row;
      if record.attempts >= MAX_ATTEMPTS {
        return Denied(LockedOut);
      }
      if record.verified {
        return Denied(Reused);
      }
      record := record.(attempts := record.attempts + 1);
      pending := Put(pending, i, record);
      assert record.attempts <= MAX_ATTEMPTS;  // so the branch for more attempts is dead
      if now > record.expires {
        Commit();
        return Denied(Expired);
      }
      if record.digest != digest {
        Commit();
        return Denied(if record.attempts >= MAX_ATTEMPTS then LockedOut else WrongCode);
      }
      record := record.(verified := true);
      pending := Put(pending, i, record);
      result := Fine;
    }

    /** The endpoints that send a code by mail. */
    method IssueCode(key: Key, digest: Digest, mailed: bool, now: int) returns (result: Result)
      requires pending == committed
      modifies this
      ensures pending == committed
      ensures (committed, result) == Handle(old(committed), Issue(key, digest, mailed), now)
    {
      result := StoreOtp(key, digest, now);
      if result.Fine? && !mailed {
        result := Denied(MailFailed);
      }
      Close(result);
    }

    /** The endpoints that verify a code; a bad token is noticed only afterwards. */
    method VerifyCode(key: Key, digest: Digest, accepted: bool, now: int)
      returns (result: Result)
      requires pending == committed
      modifies this
      ensures pending == committed
      ensures (committed, result) == Handle(old(committed), Verify(key, digest, accepted), now)
      ensures var found := Newest(old(committed), key);
              found.Some? && !old(committed)[found.value].row.verified
              && old(committed)[found.value].row.attempts < 5
              && now <= old(committed)[found.value].row.expires
              && digest == old(committed)[found.value].row.digest ==>
                result == if accepted then Fine else Denied(TokenRejected)
    {
      result := VerifyOtp(key, digest, now);
      if result.Fine? && !accepted {
        result := Denied(TokenRejected);
      }
      Close(result);
    }

    /** `reset_password` for a known user and a good reset token. */
    method ResetPassword(key: Key, code: Option<Digest>, now: int) returns (result: Result)
      requires pending == committed
      modifies this
      ensures pending == committed
      ensures (committed, result) == Handle(old(committed), Reset(key, code), now)
    {
      var found := Newest(pending, key);
      if found.None? {
        result := Denied(NoRequest);
      } else {
        var i := found.value;
        result := Fine;
        if !pending[i].row.verified {
          if code.None? {
            result := Denied(NeedCode);
          } else {
            result := VerifyOtp(key, code.value, now);
          }
        }
        if result.Fine? {
          if now > pending[i].row.expires {
            result := Denied(Expired);
          } else {
            RemovePut(pending, old(pending), i);
            pending := Remove(pending, i);
          }
        }
      }
      Close(result);
    }
  }

  lemma {:induction false} RemovePut(table: Table, before: Table, i: nat)
    requires i < |before| && |table| == |before|
    requires forall j :: 0 <= j < |table| && j != i ==> table[j] == before[j]
    ensures Remove(table, i) == Remove(before, i)
  {
  }
}
