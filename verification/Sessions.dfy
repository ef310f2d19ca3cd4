/** Bearer-token sessions, against the history of what was minted and revoked. */
module Sessions {
  import opened Wrappers
  import opened Accounts

  type Token = string

  datatype Session = Session(userId: Id, expiresAt: Time)

  datatype Event = Minted(token: Token, user: Id, expiresAt: Time)
                 | LoggedOut(token: Token)
                 | PasswordReset(user: Id)
                 | PasswordChanged(user: Id, keep: Token)
                 | Deleted(user: Id)

  /** Whether an event ends the session `token` of `user`. */
  predicate Ends(e: Event, token: Token, user: Id) {
    match e
    case Minted(t, _, _) => t == token
    case LoggedOut(t) => t == token
    case PasswordReset(u) => u == user
    case PasswordChanged(u, keep) => u == user && keep != token
    case Deleted(u) => u == user
  }

  /** The session a token stands for after a history, whether or not it has expired. */
  function Standing(h: seq<Event>, token: Token): Option<Session> {
    if h == [] then None
    else
      var last := h[|h| - 1];
      if last.Minted? && last.token == token then Some(Session(last.user, last.expiresAt))
      else
        match Standing(h[..|h| - 1], token)
        case None => None
        case Some(s) => if Ends(last, token, s.userId) then None else Some(s)
  }

  ghost predicate MintedAndKept(h: seq<Event>, token: Token, s: Session) {
    exists i :: 0 <= i < |h| && h[i] == Minted(token, s.userId, s.expiresAt) && KeptSince(h, i, token, s.userId)
  }

  ghost predicate KeptSince(h: seq<Event>, i: int, token: Token, user: Id) {
    forall j :: i < j < |h| && 0 <= j ==> !Ends(h[j], token, user)
  }

  /** A token stands exactly when some login minted it and nothing has ended it since. */
  lemma {:induction false} StandingMeansKept(h: seq<Event>, token: Token, s: Session)
    ensures Standing(h, token) == Some(s) <==> MintedAndKept(h, token, s)
  {
    if h != [] {
      var before := h[..|h| - 1];
      var last := h[|h| - 1];
      StandingMeansKept(before, token, s);
      if MintedAndKept(before, token, s) && !Ends(last, token, s.userId) {
        var i :| 0 <= i < |before| && before[i] == Minted(token, s.userId, s.expiresAt) && KeptSince(before, i, token, s.userId);
        assert h[i] == before[i];
        assert KeptSince(h, i, token, s.userId);
      }
      if MintedAndKept(h, token, s) && last != Minted(token, s.userId, s.expiresAt) {
        var i :| 0 <= i < |h| && h[i] == Minted(token, s.userId, s.expiresAt) && KeptSince(h, i, token, s.userId);
        assert i < |before| && before[i] == h[i];
        assert !Ends(last, token, s.userId);
        assert KeptSince(before, i, token, s.userId);
        assert MintedAndKept(before, token, s);
      }
      if last == Minted(token, s.userId, s.expiresAt) {
        assert KeptSince(h, |h| - 1, token, s.userId);
      }
      if MintedAndKept(h, token, s) && last.Minted? && last.token == token {
        var i :| 0 <= i < |h| && h[i] == Minted(token, s.userId, s.expiresAt) && KeptSince(h, i, token, s.userId);
        assert i < |h| - 1 ==> !Ends(last, token, s.userId);
      }
    }
  }

  /** What each event leaves of a session: a mint replaces it, a logout takes that token, a reset or a deletion takes every
      token of the user, and a password change takes them all but the one that made it. Nothing else is touched. */
  lemma RevocationExactly(h: seq<Event>, token: Token, user: Id, other: Token, expiresAt: Time)
    ensures var s := Standing(h, token);
            && Standing(h + [Minted(token, user, expiresAt)], token) == Some(Session(user, expiresAt))
            && (other != token ==> Standing(h + [Minted(other, user, expiresAt)], token) == s)
            && Standing(h + [LoggedOut(token)], token) == None
            && (other != token ==> Standing(h + [LoggedOut(other)], token) == s)
            && Standing(h + [PasswordReset(user)], token) == (if s.Some? && s.value.userId == user then None else s)
            && Standing(h + [Deleted(user)], token) == (if s.Some? && s.value.userId == user then None else s)
            && Standing(h + [PasswordChanged(user, token)], token) == s
            && (other != token ==>
                  Standing(h + [PasswordChanged(user, other)], token)
                  == if s.Some? && s.value.userId == user then None else s)
  {
    StandingPush(h, Minted(token, user, expiresAt), token);
    StandingPush(h, Minted(other, user, expiresAt), token);
    StandingPush(h, LoggedOut(token), token);
    StandingPush(h, LoggedOut(other), token);
    StandingPush(h, PasswordReset(user), token);
    StandingPush(h, Deleted(user), token);
    StandingPush(h, PasswordChanged(user, token), token);
    StandingPush(h, PasswordChanged(user, other), token);
    hide Standing;
  }

  /** What happens to another user's account or token never touches a session. */
  lemma OthersUnaffected(h: seq<Event>, e: Event, token: Token, s: Session)
    requires Standing(h, token) == Some(s)
    requires match e
             case Minted(t, _, _) => t != token
             case LoggedOut(t) => t != token
             case PasswordReset(u) => u != s.userId
             case PasswordChanged(u, _) => u != s.userId
             case Deleted(u) => u != s.userId
    ensures Standing(h + [e], token) == Some(s)
  {
    assert (h + [e])[..|h|] == h;
  }

  /** The token table holds the standing sessions, except some that had expired by `clock`. */
  ghost predicate Holds(tokens: map<Token, Session>, h: seq<Event>, clock: Time) {
    && (forall t :: t in tokens ==> Standing(h, t) == Some(tokens[t]))
    && (forall t: Token :: Standing(h, t).Some? && t !in tokens ==> Standing(h, t).value.expiresAt <= clock)
  }

  /** The table after dropping every session an event ends. */
  function Without(tokens: map<Token, Session>, e: Event): map<Token, Session> {
    map t | t in tokens && !Ends(e, t, tokens[t].userId) :: tokens[t]
  }

  lemma StandingPush(h: seq<Event>, e: Event, t: Token)
    ensures Standing(h + [e], t)
         == if e.Minted? && e.token == t then Some(Session(e.user, e.expiresAt))
            else if Standing(h, t).Some? && !Ends(e, t, Standing(h, t).value.userId) then Standing(h, t) else None
  {
    assert (h + [e])[..|h|] == h;
  }

  /** `after` is the table without the sessions of `user`, except the one of `keep`. */
  ghost predicate RevokedFor(before: map<Token, Session>, after: map<Token, Session>, user: Id, keep: Option<Token>) {
    && (forall t :: t in after <==> t in before && (before[t].userId != user || keep == Some(t)))
    && (forall t :: t in after ==> after[t] == before[t])
  }

  /** Which sessions leave the table. */
  lemma WithoutExactly(tokens: map<Token, Session>, user: Id, token: Token)
    ensures RevokedFor(tokens, Without(tokens, PasswordReset(user)), user, None)
    ensures RevokedFor(tokens, Without(tokens, Deleted(user)), user, None)
    ensures RevokedFor(tokens, Without(tokens, PasswordChanged(user, token)), user, Some(token))
    ensures Without(tokens, LoggedOut(token)) == tokens - {token}
  {
    assert Without(tokens, LoggedOut(token)) == tokens - {token};
  }

  lemma EndKeeps(tokens: map<Token, Session>, h: seq<Event>, clock: Time, e: Event)
    requires Holds(tokens, h, clock) && !e.Minted?
    ensures Holds(Without(tokens, e), h + [e], clock)
  {
    hide Ends;
    var after := Without(tokens, e);
    forall t: Token
      ensures t in after ==> Standing(h + [e], t) == Some(after[t])
      ensures Standing(h + [e], t).Some? && t !in after ==> Standing(h + [e], t).value.expiresAt <= clock
    {
      StandingPush(h, e, t);
    }
  }

  lemma MintKeeps(tokens: map<Token, Session>, h: seq<Event>, clock: Time, token: Token, user: Id, expiresAt: Time)
    requires Holds(tokens, h, clock)
    ensures Holds(tokens[token := Session(user, expiresAt)], h + [Minted(token, user, expiresAt)], clock)
  {
    var after := tokens[token := Session(user, expiresAt)];
    var h1 := h + [Minted(token, user, expiresAt)];
    forall t: Token
      ensures t in after ==> Standing(h1, t) == Some(after[t])
      ensures Standing(h1, t).Some? && t !in after ==> Standing(h1, t).value.expiresAt <= clock
    {
      StandingPush(h, Minted(token, user, expiresAt), t);
    }
  }
}
