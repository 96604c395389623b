/** Refresh tokens: the set of active ones kept in Redis, rotation on every use, and
    the response to a replay. */
module RefreshTokens {

  type UserId = string
  type Jti = string

  datatype Token = Token(user: UserId, jti: Jti)

  /** What an endpoint tells the caller. */
  datatype Reply = Rotated(token: Token) | Replayed | Suspended | Done

  function TokensOf(active: set<Token>, user: UserId): set<Token> {
    set t | t in active && t.user == user
  }

  // ------------------------------------------------------------------ requests

  /** `next` is the identifier generated for the token that may be issued; `usable`
      says that the account exists and is active. `Lapse` is a key timing out. */
  datatype Request =
    | LogIn(user: UserId, next: Jti)
    | Refresh(token: Token, usable: bool, next: Jti)
    | LogOut(token: Token)
    | ResetPassword(user: UserId)
    | Lapse(token: Token)

  /** The active tokens, and every identifier generated so far. */
  datatype State = State(active: set<Token>, minted: set<Jti>)

  function Handle(active: set<Token>, request: Request): (set<Token>, Reply) {
    match request
    case LogIn(user, next) => (active + {Token(user, next)}, Done)
    case Refresh(token, usable, next) =>
      if token !in active then (active - TokensOf(active, token.user), Replayed)
      else if !usable then (active - {token}, Suspended)
      else (active - {token} + {Token(token.user, next)}, Rotated(Token(token.user, next)))
    case LogOut(token) => (active - {token}, Done)
    case ResetPassword(user) => (active - TokensOf(active, user), Done)
    case Lapse(token) => (active - {token}, Done)
  }

  function Minting(request: Request): set<Jti> {
    if request.LogIn? || request.Refresh? then {request.next} else {}
  }

  function Step(s: State, request: Request): State {
    State(Handle(s.active, request).0, s.minted + Minting(request))
  }

  /** The Redis keys and the functions over them. */
  class RefreshStore {
    var active: set<Token>

    constructor ()
      ensures active == {}
    {
      active := {};
    }

    method StoreActive(user: UserId, jti: Jti)
      modifies this
      ensures active == old(active) + {Token(user, jti)}
    {
      active := active + {Token(user, jti)};
    }

    method Revoke(token: Token)
      modifies this
      ensures active == old(active) - {token}
    {
      active := active - {token};
    }

    method RevokeAll(user: UserId)
      modifies this
      ensures active == old(active) - TokensOf(old(active), user)
      ensures TokensOf(active, user) == {}
    {
      active := active - (set t | t in active && t.user == user);
    }

    /** `refresh_token_endpoint`, for a cookie whose payload decodes. */
    method RefreshEndpoint(token: Token, usable: bool, next: Jti) returns (reply: Reply)
      modifies this
      ensures reply == if token !in old(active) then Replayed
                       else if !usable then Suspended
                       else Rotated(Token(token.user, next))
      ensures forall t :: t in active <==>
                if reply == Replayed then t in old(active) && t.user != token.user
                else (t in old(active) && t != token) || reply == Rotated(t)
      ensures (active, reply) == Handle(old(active), Refresh(token, usable, next))
    {
      if token !in active {
        RevokeAll(token.user);
        return Replayed;
      }
      Revoke(token);
      if !usable {
        return Suspended;
      }
      StoreActive(token.user, next);
      reply := Rotated(Token(token.user, next));
    }
  }

  // ---------------------------------------------------------------------- runs

  function Execute(s: State, requests: seq<Request>): State
    decreases |requests|
  {
    if requests == [] then s else Execute(Step(s, requests[0]), requests[1..])
  }

  /** Generated identifiers are new each time. */
  predicate Legal(s: State, requests: seq<Request>)
    decreases |requests|
  {
    requests == [] ||
    (Minting(requests[0]) !! s.minted && Legal(Step(s, requests[0]), requests[1..]))
  }

  const EMPTY := State({}, {})

  /** The state just before request `i`. */
  function Before(requests: seq<Request>, i: nat): State
    requires i <= |requests|
  {
    Execute(EMPTY, requests[..i])
  }

  function ReplyAt(requests: seq<Request>, i: nat): Reply
    requires i < |requests|
  {
    Handle(Before(requests, i).active, requests[i]).1
  }

  predicate Accepts(requests: seq<Request>, i: nat, token: Token)
    requires i < |requests|
  {
    requests[i].Refresh? && requests[i].token == token && token in Before(requests, i).active
  }

  ghost predicate AllMinted(s: State) {
    forall t :: t in s.active ==> t.jti in s.minted
  }

  lemma {:induction false} ExecuteAppend(s: State, a: seq<Request>, request: Request)
    ensures Execute(s, a + [request]) == Step(Execute(s, a), request)
    ensures Legal(s, a + [request])
       <==> Legal(s, a) && Minting(request) !! Execute(s, a).minted
    decreases |a|
  {
    if a == [] {
      assert a + [request] == [request] && [request][1..] == [];
    } else {
      assert (a + [request])[1..] == a[1..] + [request];
      ExecuteAppend(Step(s, a[0]), a[1..], request);
    }
  }

  lemma {:induction false} LegalPrefix(requests: seq<Request>, i: nat)
    requires Legal(EMPTY, requests) && i <= |requests|
    ensures Legal(EMPTY, requests[..i])
    decreases |requests| - i
  {
    if i == |requests| {
      assert requests[..i] == requests;
    } else {
      LegalPrefix(requests, i + 1);
      assert requests[..i + 1] == requests[..i] + [requests[i]];
      ExecuteAppend(EMPTY, requests[..i], requests[i]);
    }
  }

  lemma {:induction false} NextState(requests: seq<Request>, i: nat)
    requires Legal(EMPTY, requests) && i < |requests|
    ensures Before(requests, i + 1) == Step(Before(requests, i), requests[i])
    ensures Minting(requests[i]) !! Before(requests, i).minted
  {
    LegalPrefix(requests, i + 1);
    assert requests[..i + 1] == requests[..i] + [requests[i]];
    ExecuteAppend(EMPTY, requests[..i], requests[i]);
  }

  lemma {:induction false} ActiveAreMinted(requests: seq<Request>, i: nat)
    requires Legal(EMPTY, requests) && i <= |requests|
    ensures AllMinted(Before(requests, i))
  {
    if i > 0 {
      ActiveAreMinted(requests, i - 1);
      NextState(requests, i - 1);
    } else {
      assert requests[..0] == [];
    }
  }

  /** A token that was issued and is no longer active never becomes active again. */
  lemma {:induction false} DeadStaysDead(requests: seq<Request>, i: nat, j: nat, token: Token)
    requires Legal(EMPTY, requests) && i <= j <= |requests|
    requires token.jti in Before(requests, i).minted && token !in Before(requests, i).active
    ensures token.jti in Before(requests, j).minted && token !in Before(requests, j).active
  {
    if i < j {
      DeadStaysDead(requests, i, j - 1, token);
      NextState(requests, j - 1);
    }
  }

  // ------------------------------------------------------------------ theorems

  /** Each token is accepted at most once in any run. */
  lemma {:induction false} AcceptedAtMostOnce(requests: seq<Request>, i: nat, j: nat, token: Token)
    requires Legal(EMPTY, requests) && i < j < |requests|
    requires Accepts(requests, i, token)
    ensures !Accepts(requests, j, token)
    ensures requests[j].Refresh? && requests[j].token == token ==>
              ReplyAt(requests, j) == Replayed
  {
    ActiveAreMinted(requests, i);
    NextState(requests, i);
    DeadStaysDead(requests, i + 1, j, token);
  }

  /** Whether request `i` is a replay or a password reset of this user. */
  predicate Purges(requests: seq<Request>, i: nat, user: UserId)
    requires i < |requests|
  {
    || requests[i] == ResetPassword(user)
    || (requests[i].Refresh? && requests[i].token.user == user
        && ReplyAt(requests, i) == Replayed)
  }

  /** After a replay or a password reset, no token issued earlier to that user is
      ever accepted again, and nobody else's tokens are touched. */
  lemma {:induction false} PurgeIsFinal(requests: seq<Request>, i: nat, j: nat, token: Token)
    requires Legal(EMPTY, requests) && i < j < |requests|
    requires Purges(requests, i, token.user) && token.jti in Before(requests, i).minted
    ensures !Accepts(requests, j, token)
    ensures TokensOf(Before(requests, i + 1).active, token.user) == {}
    ensures forall other: Token :: other.user != token.user ==>
              (other in Before(requests, i + 1).active <==> other in Before(requests, i).active)
  {
    NextState(requests, i);
    DeadStaysDead(requests, i + 1, j, token);
  }

  /** A successful refresh replaces one token of the user by another: the number of
      the user's active tokens does not change, nor does any other token. */
  lemma {:induction false} RotationKeepsCount(requests: seq<Request>, i: nat, token: Token)
    requires Legal(EMPTY, requests) && i < |requests|
    requires Accepts(requests, i, token) && requests[i].usable
    ensures var before, after := Before(requests, i).active, Before(requests, i + 1).active;
            var replacement := Token(token.user, requests[i].next);
            && |TokensOf(after, token.user)| == |TokensOf(before, token.user)|
            && replacement !in before && replacement in after && token !in after
            && after - {replacement} == before - {token}
  {
    var before, after := Before(requests, i).active, Before(requests, i + 1).active;
    var replacement := Token(token.user, requests[i].next);
    ActiveAreMinted(requests, i);
    NextState(requests, i);
    var mine, others := TokensOf(before, token.user), TokensOf(before, token.user) - {token};
    assert mine == others + {token};
    assert TokensOf(after, token.user) == others + {replacement};
  }

  /** After its logout, or its timing out, a token is never accepted again, and nobody
      else's, nor any other of the user's, is touched. */
  lemma {:induction false} LogOutIsFinal(requests: seq<Request>, i: nat, j: nat, token: Token)
    requires Legal(EMPTY, requests) && i < j < |requests|
    requires requests[i] == LogOut(token) || requests[i] == Lapse(token)
    requires token.jti in Before(requests, i).minted
    ensures !Accepts(requests, j, token)
    ensures requests[j].Refresh? && requests[j].token == token ==>
              ReplyAt(requests, j) == Replayed
    ensures forall other :: other != token ==>
              (other in Before(requests, i + 1).active <==> other in Before(requests, i).active)
  {
    NextState(requests, i);
    DeadStaysDead(requests, i + 1, j, token);
  }

  /** Request `i` issues this token: a login, or the use of another. */
  predicate Issues(requests: seq<Request>, i: nat, token: Token)
    requires i < |requests|
  {
    || requests[i] == LogIn(token.user, token.jti)
    || (requests[i].Refresh? && ReplyAt(requests, i) == Rotated(token))
  }

  /** Request `i` uses this token up, logs it out, lets it time out, or purges its user. */
  predicate Ends(requests: seq<Request>, i: nat, token: Token)
    requires i < |requests|
  {
    || (requests[i].Refresh? && requests[i].token == token)
    || requests[i] == LogOut(token) || requests[i] == Lapse(token)
    || Purges(requests, i, token.user)
  }

  /** A token is good from its issue on, until it is used, logged out, timed out or
      purged. */
  lemma {:induction false} GoodUntilEnded(requests: seq<Request>, i: nat, j: nat, token: Token)
    requires Legal(EMPTY, requests) && i < j <= |requests|
    requires Issues(requests, i, token)
    requires forall m :: i < m < j ==> !Ends(requests, m, token)
    ensures token in Before(requests, j).active
    ensures j < |requests| && requests[j].Refresh? && requests[j].token == token ==>
              ReplyAt(requests, j) == if requests[j].usable
                                      then Rotated(Token(token.user, requests[j].next))
                                      else Suspended
  {
    NextState(requests, j - 1);
    if i + 1 < j {
      GoodUntilEnded(requests, i, j - 1, token);
      assert !Ends(requests, j - 1, token);
    }
  }
}
