/** Password reset by one-time tokens, of which the database only keeps hashes. */
module ResetTokens {
  import opened Wrappers

  type UserId = int

  /** A stored token; `used` is when it was used. */
  datatype Token = Token(user: UserId, hash: string, expiresAt: int, usedAt: Option<int>)

  const TTL_SECONDS := 900

  /** Users by email, password hashes by user, and the token rows by id. */
  datatype Store = Store(users: map<string, UserId>, passwords: map<UserId, string>, tokens: map<int, Token>)

  datatype Error = EmailRequired | DuplicateToken | MailFailed | InvalidToken | PasswordRequired | HashingFailed

  /** `id` and `raw` are what the generators produce, and `sent` says whether the mail goes out; `digest` is what
      hashing the new password gives, if it succeeds. */
  datatype Action =
    | RequestReset(email: string, id: int, raw: string, now: int, sent: bool)
    | ResetPassword(token: string, newPassword: string, digest: Option<string>, now: int)

  /** No two tokens have the same hash: the column is unique, and hashing is injective. */
  ghost predicate Injective(hash: string -> string) {
    forall x, y :: hash(x) == hash(y) ==> x == y
  }

  ghost predicate UniqueHashes(s: Store) {
    forall i, j :: i in s.tokens && j in s.tokens && s.tokens[i].hash == s.tokens[j].hash ==> i == j
  }

  predicate HashTaken(s: Store, h: string) {
    exists i :: i in s.tokens && s.tokens[i].hash == h
  }

  /** The row the query for a valid token finds: this hash, not used, not expired. */
  predicate IsValid(s: Store, id: int, h: string, now: int) {
    id in s.tokens && s.tokens[id].hash == h && s.tokens[id].usedAt.None? && s.tokens[id].expiresAt > now
  }

  predicate HasValid(s: Store, h: string, now: int) {
    exists i :: i in s.tokens && IsValid(s, i, h, now)
  }

  function FindValid(s: Store, h: string, now: int): (id: int)
    requires UniqueHashes(s) && HasValid(s, h, now)
    ensures IsValid(s, id, h, now)
  {
    var i :| i in s.tokens && IsValid(s, i, h, now); i
  }

  function MarkUsed(s: Store, id: int, now: int): Store {
    if id in s.tokens then s.(tokens := s.tokens[id := s.tokens[id].(usedAt := Some(now))]) else s
  }

  function SetPassword(s: Store, user: UserId, digest: string): Store {
    if user in s.passwords then s.(passwords := s.passwords[user := digest]) else s
  }

  /** One request. An unknown email is answered like a known one. The token is stored before its mail is sent. */
  function Do(hash: string -> string, s: Store, a: Action): (Store, Result<(), Error>)
    requires UniqueHashes(s)
  {
    match a
    case RequestReset(email, id, raw, now, sent) =>
      if email == "" then (s, Err(EmailRequired))
      else if email !in s.users then (s, Ok(()))
      else if id in s.tokens || HashTaken(s, hash(raw)) then (s, Err(DuplicateToken))
      else (s.(tokens := s.tokens[id := Token(s.users[email], hash(raw), now + TTL_SECONDS, None)]),
            if sent then Ok(()) else Err(MailFailed))
    case ResetPassword(token, newPassword, digest, now) =>
      if !HasValid(s, hash(token), now) then (s, Err(InvalidToken))
      else if newPassword == "" then (s, Err(PasswordRequired))
      else
        var id := FindValid(s, hash(token), now);
        var marked := MarkUsed(s, id, now);
        if digest.None? then (marked, Err(HashingFailed))
        else (SetPassword(marked, s.tokens[id].user, digest.value), Ok(()))
  }

  class ResetService {
    const hash: string -> string
    var store: Store

    constructor (hash: string -> string, store: Store)
      requires UniqueHashes(store)
      ensures this.hash == hash && this.store == store
    {
      this.hash, this.store := hash, store;
    }

    method Request(email: string, id: int, raw: string, now: int, sent: bool) returns (r: Result<(), Error>)
      requires UniqueHashes(store)
      modifies this
      ensures UniqueHashes(store) && (store, r) == Do(hash, old(store), Action.RequestReset(email, id, raw, now, sent))
    {
      if email == "" { return Err(EmailRequired); }
      if email !in store.users { return Ok(()); }
      if id in store.tokens || HashTaken(store, hash(raw)) { return Err(DuplicateToken); }
      store := store.(tokens := store.tokens[id := Token(store.users[email], hash(raw), now + TTL_SECONDS, None)]);
      return if sent then Ok(()) else Err(MailFailed);
    }

    /** Marks the token used before anything that can fail. */
    method Reset(token: string, newPassword: string, digest: Option<string>, now: int) returns (r: Result<(), Error>)
      requires UniqueHashes(store)
      modifies this
      ensures UniqueHashes(store)
      ensures (store, r) == Do(hash, old(store), Action.ResetPassword(token, newPassword, digest, now))
    {
      if !HasValid(store, hash(token), now) { return Err(InvalidToken); }
      if newPassword == "" { return Err(PasswordRequired); }
      var id := FindValid(store, hash(token), now);
      var user := store.tokens[id].user;
      store := MarkUsed(store, id, now);
      if digest.None? { return Err(HashingFailed); }
      store := SetPassword(store, user, digest.value);
      return Ok(());
    }
  }

  // ---------- Runs ----------

  lemma DoKeepsUnique(hash: string -> string, s: Store, a: Action)
    requires UniqueHashes(s)
    ensures UniqueHashes(Do(hash, s, a).0)
  {
  }

  ghost function DoAll(hash: string -> string, s: Store, actions: seq<Action>): (t: Store)
    requires UniqueHashes(s)
    ensures UniqueHashes(t)
    decreases |actions|
  {
    if actions == [] then s
    else
      DoKeepsUnique(hash, s, actions[0]);
      DoAll(hash, Do(hash, s, actions[0]).0, actions[1..])
  }

  predicate Succeeds(hash: string -> string, s: Store, a: Action, token: string)
    requires UniqueHashes(s)
  {
    a.ResetPassword? && a.token == token && Do(hash, s, a).1.Ok?
  }

  /** How many resets with the token succeed in a run. */
  ghost function Successes(hash: string -> string, s: Store, actions: seq<Action>, token: string): nat
    requires UniqueHashes(s)
    decreases |actions|
  {
    if actions == [] then 0
    else
      DoKeepsUnique(hash, s, actions[0]);
      (if Succeeds(hash, s, actions[0], token) then 1 else 0)
      + Successes(hash, Do(hash, s, actions[0]).0, actions[1..], token)
  }

  /** The token's row exists and is marked as used. */
  ghost predicate Spent(hash: string -> string, s: Store, token: string) {
    exists i :: i in s.tokens && s.tokens[i].hash == hash(token) && s.tokens[i].usedAt.Some?
  }

  lemma SpentStays(hash: string -> string, s: Store, a: Action, token: string)
    requires Injective(hash) && UniqueHashes(s) && Spent(hash, s, token)
    ensures Spent(hash, Do(hash, s, a).0, token) && !Succeeds(hash, s, a, token)
  {
    var i :| i in s.tokens && s.tokens[i].hash == hash(token) && s.tokens[i].usedAt.Some?;
    var t := Do(hash, s, a).0;
    assert i in t.tokens && t.tokens[i].hash == hash(token) && t.tokens[i].usedAt.Some?;
  }

  /** A token that is used never becomes valid again, whatever the generators and the clock produce later. */
  lemma {:induction false} SpentForever(hash: string -> string, s: Store, actions: seq<Action>, token: string)
    requires Injective(hash) && UniqueHashes(s) && Spent(hash, s, token)
    ensures Spent(hash, DoAll(hash, s, actions), token) && Successes(hash, s, actions, token) == 0
    decreases |actions|
  {
    if actions != [] {
      SpentStays(hash, s, actions[0], token);
      DoKeepsUnique(hash, s, actions[0]);
      SpentForever(hash, Do(hash, s, actions[0]).0, actions[1..], token);
    }
  }

  /** Every token yields at most one successful reset in any run. */
  lemma {:induction false} AtMostOnce(hash: string -> string, s: Store, actions: seq<Action>, token: string)
    requires Injective(hash) && UniqueHashes(s)
    ensures Successes(hash, s, actions, token) <= 1
    decreases |actions|
  {
    if actions != [] {
      var a, t := actions[0], Do(hash, s, actions[0]).0;
      DoKeepsUnique(hash, s, a);
      if Succeeds(hash, s, a, token) {
        assert t.tokens[FindValid(s, hash(token), a.now)].usedAt.Some?;
        SpentForever(hash, t, actions[1..], token);
      } else {
        AtMostOnce(hash, t, actions[1..], token);
      }
    }
  }

  /** The row is what a request with a known email stores. */
  ghost predicate StoredBy(hash: string -> string, users: map<string, UserId>, row: Token, a: Action) {
    && a.RequestReset? && a.email in users
    && row.user == users[a.email] && row.hash == hash(a.raw) && row.expiresAt == a.now + TTL_SECONDS
  }

  /** Where every row comes from: an earlier request with this token for an email of this user. */
  lemma {:induction false} RowsComeFromRequests(hash: string -> string, s: Store, actions: seq<Action>, id: int)
    returns (j: nat)
    requires UniqueHashes(s) && id !in s.tokens && id in DoAll(hash, s, actions).tokens
    ensures j < |actions| && StoredBy(hash, s.users, DoAll(hash, s, actions).tokens[id], actions[j])
    decreases |actions|
  {
    var t := Do(hash, s, actions[0]).0;
    DoKeepsUnique(hash, s, actions[0]);
    if id in t.tokens {
      RowStays(hash, t, actions[1..], id);
      j := 0;
    } else {
      var rest := RowsComeFromRequests(hash, t, actions[1..], id);
      j := rest + 1;
    }
  }

  lemma {:induction false} RowStays(hash: string -> string, s: Store, actions: seq<Action>, id: int)
    requires UniqueHashes(s) && id in s.tokens
    ensures id in DoAll(hash, s, actions).tokens
    ensures DoAll(hash, s, actions).tokens[id].(usedAt := s.tokens[id].usedAt) == s.tokens[id]
    decreases |actions|
  {
    if actions != [] {
      DoKeepsUnique(hash, s, actions[0]);
      RowStays(hash, Do(hash, s, actions[0]).0, actions[1..], id);
    }
  }

  /** A reset that succeeds after a run from a store without tokens goes back to a request with that very token:
      it comes before that request's expiry, and changes the password of the user of that email and nothing else. */
  lemma SuccessIsAuthorised(hash: string -> string, s: Store, actions: seq<Action>, a: Action) returns (j: nat)
    requires Injective(hash) && UniqueHashes(s) && s.tokens == map[] && a.ResetPassword?
    requires Succeeds(hash, DoAll(hash, s, actions), a, a.token)
    ensures j < |actions| && actions[j].RequestReset? && actions[j].raw == a.token
    ensures a.now < actions[j].now + TTL_SECONDS && actions[j].email in s.users && a.digest.Some?
    ensures var before, after := DoAll(hash, s, actions), Do(hash, DoAll(hash, s, actions), a).0;
      && after.users == before.users
      && after.passwords == SetPassword(before, s.users[actions[j].email], a.digest.value).passwords
  {
    var before := DoAll(hash, s, actions);
    j := RowsComeFromRequests(hash, s, actions, FindValid(before, hash(a.token), a.now));
  }

  /** A reset with the token that gets past the checks of a token expiring at the given time. */
  predicate Uses(a: Action, token: string, expiry: int) {
    a.ResetPassword? && a.token == token && a.newPassword != "" && a.now < expiry
  }

  /** The row of a token: its user and expiry do not change, and it is used exactly if some reset used it. */
  ghost predicate Issued(hash: string -> string, s: Store, id: int, row: Token, used: bool) {
    && UniqueHashes(s) && id in s.tokens && s.tokens[id].(usedAt := row.usedAt) == row
    && (s.tokens[id].usedAt.Some? <==> used)
  }

  lemma IssuedStep(hash: string -> string, s: Store, a: Action, id: int, row: Token, raw: string, used: bool)
    requires Injective(hash) && Issued(hash, s, id, row, used) && row.hash == hash(raw)
    ensures Issued(hash, Do(hash, s, a).0, id, row, used || Uses(a, raw, row.expiresAt))
    ensures Do(hash, s, a).0.users == s.users
    ensures forall user :: user in s.passwords ==> user in Do(hash, s, a).0.passwords
  {
    DoKeepsUnique(hash, s, a);
    if a.ResetPassword? && a.token == raw && HasValid(s, hash(raw), a.now) {
      assert FindValid(s, hash(raw), a.now) == id;
    }
    if a.ResetPassword? && a.token == raw && !used && a.now < row.expiresAt {
      assert IsValid(s, id, hash(raw), a.now);
    }
  }

  lemma {:induction false} IssuedRuns(hash: string -> string, s: Store, actions: seq<Action>, id: int, row: Token,
                                      raw: string, used: bool)
    requires Injective(hash) && Issued(hash, s, id, row, used) && row.hash == hash(raw)
    ensures Issued(hash, DoAll(hash, s, actions), id, row,
                   used || exists i :: 0 <= i < |actions| && Uses(actions[i], raw, row.expiresAt))
    ensures forall user :: user in s.passwords ==> user in DoAll(hash, s, actions).passwords
    decreases |actions|
  {
    if actions != [] {
      var rest := actions[1..];
      var now := used || Uses(actions[0], raw, row.expiresAt);
      IssuedStep(hash, s, actions[0], id, row, raw, used);
      IssuedRuns(hash, Do(hash, s, actions[0]).0, rest, id, row, raw, now);
      assert (exists i :: 0 <= i < |actions| && Uses(actions[i], raw, row.expiresAt))
             <==> Uses(actions[0], raw, row.expiresAt)
                  || exists i :: 0 <= i < |rest| && Uses(rest[i], raw, row.expiresAt) by {
        SplitUse(actions, raw, row.expiresAt);
      }
    }
  }

  lemma SplitUse(actions: seq<Action>, raw: string, expiry: int)
    requires actions != []
    ensures (exists i :: 0 <= i < |actions| && Uses(actions[i], raw, expiry))
            <==> Uses(actions[0], raw, expiry)
                 || exists i :: 0 <= i < |actions[1..]| && Uses(actions[1..][i], raw, expiry)
  {
    if i :| 0 <= i < |actions| && Uses(actions[i], raw, expiry) {
      assert i == 0 || Uses(actions[1..][i - 1], raw, expiry);
    }
    if i :| 0 <= i < |actions[1..]| && Uses(actions[1..][i], raw, expiry) {
      assert Uses(actions[i + 1], raw, expiry);
    }
  }

  /** A token that was issued, its mail sent or not, works after any run exactly if it has not expired and no reset of
      the run has used it; and then it sets the password of its user, and no other. */
  lemma FreshTokenWorks(hash: string -> string, s: Store, email: string, id: int, raw: string, now: int, sent: bool,
                        actions: seq<Action>, later: int, password: string, digest: string)
    requires Injective(hash) && UniqueHashes(s) && email != "" && email in s.users && password != ""
    requires s.users[email] in s.passwords
    requires id !in s.tokens && !HashTaken(s, hash(raw))
    ensures UniqueHashes(Do(hash, s, RequestReset(email, id, raw, now, sent)).0)
    ensures var t := DoAll(hash, Do(hash, s, RequestReset(email, id, raw, now, sent)).0, actions);
      var (v, r) := Do(hash, t, ResetPassword(raw, password, Some(digest), later));
      && (r.Ok? <==> later < now + TTL_SECONDS
                     && !exists i :: 0 <= i < |actions| && Uses(actions[i], raw, now + TTL_SECONDS))
      && v.passwords == if r.Ok? then t.passwords[s.users[email] := digest] else t.passwords
  {
    var issued := Do(hash, s, RequestReset(email, id, raw, now, sent)).0;
    var row := Token(s.users[email], hash(raw), now + TTL_SECONDS, None);
    DoKeepsUnique(hash, s, RequestReset(email, id, raw, now, sent));
    IssuedRuns(hash, issued, actions, id, row, raw, false);
    var t := DoAll(hash, issued, actions);
    if t.tokens[id].usedAt.None? && later < now + TTL_SECONDS {
      assert IsValid(t, id, hash(raw), later);
    }
  }

  /** What a request answers, and what it stores: an unknown email is answered like a known one whose mail goes out, and
      nothing is stored for it; a known one gets one more token, unless the generated one exists already. */
  lemma RequestAnswers(hash: string -> string, s: Store, email: string, id: int, raw: string, now: int, sent: bool)
    requires UniqueHashes(s)
    ensures var (t, r) := Do(hash, s, RequestReset(email, id, raw, now, sent));
      && t.users == s.users && t.passwords == s.passwords
      && (r == Err(EmailRequired) <==> email == "")
      && (email != "" && email !in s.users ==> t == s && r == Ok(()))
      && (email != "" && email in s.users ==>
            if id in s.tokens || exists i :: i in s.tokens && s.tokens[i].hash == hash(raw) then
              t == s && r == Err(DuplicateToken)
            else
              && t.tokens.Keys == s.tokens.Keys + {id} && (forall i :: i in s.tokens ==> t.tokens[i] == s.tokens[i])
              && t.tokens[id].user == s.users[email] && t.tokens[id].hash == hash(raw)
              && t.tokens[id].usedAt == None && t.tokens[id].expiresAt == now + 900
              && r == (if sent then Ok(()) else Err(MailFailed)))
  {
  }

  /** What a reset answers, and what it changes: without a row of this hash that is unused and not expired it is
      refused, whatever else is wrong with it; without a new password nothing changes; otherwise that row is marked
      as used now, and the password of its user is set, if hashing succeeds and the user has one. */
  lemma ResetAnswers(hash: string -> string, s: Store, token: string, password: string, digest: Option<string>,
                     now: int, id: int)
    requires UniqueHashes(s)
    ensures var (t, r) := Do(hash, s, ResetPassword(token, password, digest, now));
      && t.users == s.users
      && ((forall i :: i in s.tokens && s.tokens[i].hash == hash(token) ==>
             s.tokens[i].usedAt != None || s.tokens[i].expiresAt <= now) ==> t == s && r == Err(InvalidToken))
      && (id in s.tokens && s.tokens[id].hash == hash(token) && s.tokens[id].usedAt == None
          && now < s.tokens[id].expiresAt ==>
            if password == "" then t == s && r == Err(PasswordRequired)
            else
              var user := s.tokens[id].user;
              && t.tokens == s.tokens[id := s.tokens[id].(usedAt := Some(now))]
              && r == (if digest.Some? then Ok(()) else Err(HashingFailed))
              && t.passwords == (if digest.Some? && user in s.passwords then s.passwords[user := digest.value]
                                 else s.passwords))
  {
    if id in s.tokens && s.tokens[id].hash == hash(token) && s.tokens[id].usedAt == None
       && now < s.tokens[id].expiresAt {
      assert IsValid(s, id, hash(token), now);
    }
  }

  /** A reset without a new password leaves everything as it was, so the token still works; a reset whose hashing
      fails has already used the token up. */
  lemma FailedResets(hash: string -> string, s: Store, token: string, now: int,
                     digest: Option<string>, password: string)
    requires Injective(hash) && UniqueHashes(s) && HasValid(s, hash(token), now)
    ensures Do(hash, s, ResetPassword(token, "", digest, now)) == (s, Err(PasswordRequired))
    ensures password != "" ==>
      var (t, r) := Do(hash, s, ResetPassword(token, password, None, now));
      r == Err(HashingFailed) && t.passwords == s.passwords && Spent(hash, t, token)
  {
    var id := FindValid(s, hash(token), now);
    assert MarkUsed(s, id, now).tokens[id].usedAt.Some?;
  }
}
