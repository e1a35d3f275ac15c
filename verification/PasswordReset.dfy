/**
 Resetting a password by link. The link is checked without being burnt, then burnt, the password saved and
 every session and other link revoked in one transaction. Calls overlap: each runs its two reads and its
 transaction as separate steps among everyone else's. A hashed secret stands for its link; secrets are fresh.
 */
module PasswordReset {
  import opened Option

  datatype Purpose = ResetLink | NumericCode

  datatype Token = Token(user: nat, purpose: Purpose, expiresAt: int, consumed: bool)

  datatype Session = Session(user: nat, revoked: bool)

  /** A user without a password signs in with a social account only. */
  datatype Rows = Rows(tokens: map<nat, Token>, passwords: map<nat, Option<string>>, sessions: map<nat, Session>)

  const RESET_TTL := 1800000
  const OTP_TTL := 600000

  // ---------------------------------------------------------------- statements

  function FindLiveToken(r: Rows, token: nat, now: int): Option<nat> {
    if token in r.tokens && r.tokens[token].purpose.ResetLink? && !r.tokens[token].consumed && now <= r.tokens[token].expiresAt
    then Some(r.tokens[token].user) else None
  }

  predicate HasPassword(r: Rows, user: nat) {
    user in r.passwords && r.passwords[user].Some?
  }

  /** The guard of claim()'s UPDATE. */
  predicate Claimable(r: Rows, token: nat, now: int) {
    token in r.tokens && !r.tokens[token].consumed && now < r.tokens[token].expiresAt
  }

  function Claimed(r: Rows, token: nat): Rows
    requires token in r.tokens
  {
    r.(tokens := r.tokens[token := r.tokens[token].(consumed := true)])
  }

  function SavePassword(r: Rows, user: nat, password: string): Rows {
    r.(passwords := r.passwords[user := Some(password)])
  }

  function RevokeSessions(r: Rows, user: nat): Rows {
    r.(sessions := map s | s in r.sessions :: if r.sessions[s].user == user then r.sessions[s].(revoked := true) else r.sessions[s])
  }

  function ConsumeAll(r: Rows, user: nat, purpose: Purpose): Rows {
    r.(tokens := map t | t in r.tokens ::
      if r.tokens[t].user == user && r.tokens[t].purpose == purpose then r.tokens[t].(consumed := true) else r.tokens[t])
  }

  /** An unused reset link of a user who has a password to reset. */
  predicate Resettable(r: Rows, token: nat) {
    token in r.tokens && r.tokens[token].purpose.ResetLink? && !r.tokens[token].consumed
    && r.tokens[token].user in r.passwords && r.passwords[r.tokens[token].user].Some?
  }

  /** The transaction, when it commits. */
  function Reset(r: Rows, token: nat, user: nat, password: string): Rows
    requires token in r.tokens
  {
    ConsumeAll(RevokeSessions(SavePassword(Claimed(r, token), user, password), user), user, ResetLink)
  }

  // ---------------------------------------------------------------- the service

  class AuthService {
    var tokens: map<nat, Token>
    var passwords: map<nat, Option<string>>
    var sessions: map<nat, Session>

    function State(): Rows
      reads this
    {
      Rows(tokens, passwords, sessions)
    }

    constructor (r: Rows)
      ensures State() == r
    {
      tokens, passwords, sessions := r.tokens, r.passwords, r.sessions;
    }

    method Claim(token: nat, now: int) returns (claimed: bool)
      modifies this`tokens
      ensures claimed <==> token in old(tokens) && !old(tokens)[token].consumed && now < old(tokens)[token].expiresAt
      ensures State() == if claimed then Claimed(old(State()), token) else old(State())
    {
      claimed := token in tokens && !tokens[token].consumed && now < tokens[token].expiresAt;
      if claimed {
        tokens := tokens[token := tokens[token].(consumed := true)];
      }
    }

    /** `saves` is whether the database accepts the writes; when it does not, the claim rolls back with them. */
    method ResetTransaction(token: nat, user: nat, password: string, now: int, saves: bool) returns (done: bool)
      modifies this
      ensures done <==> token in old(tokens) && !old(tokens)[token].consumed && now < old(tokens)[token].expiresAt && saves
      ensures State() == if done then Reset(old(State()), token, user, password) else old(State())
    {
      ghost var start := State();
      var savedTokens := tokens;
      done := Claim(token, now);
      if !done {
        return;
      }
      if !saves {
        tokens := savedTokens;
        return false;
      }
      passwords := passwords[user := Some(password)];
      sessions := RevokeSessions(Rows(tokens, passwords, sessions), user).sessions;
      tokens := ConsumeAll(Rows(tokens, passwords, sessions), user, ResetLink).tokens;
      assert State() == Reset(start, token, user, password);
    }

    /** One call on its own. `later` is the clock at the transaction. */
    method ResetPassword(token: nat, password: string, now: int, later: int, saves: bool) returns (done: bool)
      modifies this
      ensures done <==> Resettable(old(State()), token) && now <= old(tokens)[token].expiresAt && later < old(tokens)[token].expiresAt && saves
      ensures State() == if done then Reset(old(State()), token, old(State()).tokens[token].user, password) else old(State())
    {
      var found := FindLiveToken(Rows(tokens, passwords, sessions), token, now);
      if found.None? {
        return false;
      }
      if !HasPassword(Rows(tokens, passwords, sessions), found.value) {
        return false;
      }
      done := ResetTransaction(token, found.value, password, later, saves);
    }
  }

  // ---------------------------------------------------------------- calls that overlap

  /** Where a resetPassword call stands. */
  datatype Call =
    | Finding(token: nat, password: string)
    | Checking(token: nat, password: string, user: nat)
    | Committing(token: nat, password: string, user: nat)
    | Succeeded(token: nat, user: nat)
    | Failed

  datatype World = World(rows: Rows, now: int, calls: map<nat, Call>)

  datatype Event =
    | Issue(token: nat, user: nat, purpose: Purpose)
    | SignIn(session: nat, user: nat)
    | Wait(ms: nat)
    | Start(call: nat, token: nat, password: string)
    | Continue(call: nat, saves: bool)

  /** The next step of a call: a read, another read, the transaction. */
  function Advance(w: World, c: nat, saves: bool): World
    requires c in w.calls
  {
    match w.calls[c]
    case Finding(token, password) =>
      var user := FindLiveToken(w.rows, token, w.now);
      w.(calls := w.calls[c := if user.Some? then Checking(token, password, user.value) else Failed])
    case Checking(token, password, user) =>
      w.(calls := w.calls[c := if HasPassword(w.rows, user) then Committing(token, password, user) else Failed])
    case Committing(token, password, user) =>
      if Claimable(w.rows, token, w.now) && saves then
        w.(rows := Reset(w.rows, token, user, password), calls := w.calls[c := Succeeded(token, user)])
      else w.(calls := w.calls[c := Failed])
    case _ => w
  }

  /** Tokens, sessions and calls are fresh; a reset link is only issued to a user with a password. */
  function Happen(w: World, e: Event): World {
    match e
    case Issue(token, user, purpose) =>
      if token in w.rows.tokens || (purpose.ResetLink? && !HasPassword(w.rows, user)) then w
      else w.(rows := w.rows.(tokens := w.rows.tokens[token := Token(user, purpose, w.now + (if purpose.ResetLink? then RESET_TTL else OTP_TTL), false)]))
    case SignIn(session, user) =>
      if session in w.rows.sessions then w
      else w.(rows := w.rows.(sessions := w.rows.sessions[session := Session(user, false)]))
    case Wait(ms) => w.(now := w.now + ms)
    case Start(call, token, password) => if call in w.calls then w else w.(calls := w.calls[call := Finding(token, password)])
    case Continue(call, saves) => if call in w.calls then Advance(w, call, saves) else w
  }

  function RunAll(w: World, events: seq<Event>): World
    decreases |events|
  {
    if events == [] then w else Happen(RunAll(w, events[..|events| - 1]), events[|events| - 1])
  }

  // ---------------------------------------------------------------- what one step keeps

  /** A token never comes back, keeps its user, and a session once revoked stays so. */
  ghost predicate Later(r: Rows, s: Rows) {
    && (forall t <- r.tokens :: t in s.tokens && s.tokens[t] == r.tokens[t].(consumed := s.tokens[t].consumed)
                               && (r.tokens[t].consumed ==> s.tokens[t].consumed))
    && (forall x <- r.sessions :: x in s.sessions && s.sessions[x].user == r.sessions[x].user
                                 && (r.sessions[x].revoked ==> s.sessions[x].revoked))
  }

  /** Right after a reset: the password is the new one, and every earlier link and session of the user is dead. */
  ghost predicate Locked(r: Rows, user: nat) {
    && (forall t <- r.tokens :: r.tokens[t].user == user && r.tokens[t].purpose.ResetLink? ==> r.tokens[t].consumed)
    && (forall x <- r.sessions :: r.sessions[x].user == user ==> r.sessions[x].revoked)
  }

  lemma ResetLocks(r: Rows, token: nat, user: nat, password: string)
    requires token in r.tokens
    ensures var s := Reset(r, token, user, password);
            && Later(r, s) && Locked(s, user) && s.passwords == r.passwords[user := Some(password)]
            && s.tokens[token].consumed
            && (forall t <- r.tokens :: t != token && !(r.tokens[t].user == user && r.tokens[t].purpose.ResetLink?) ==> s.tokens[t] == r.tokens[t])
            && (forall x <- r.sessions :: r.sessions[x].user != user ==> s.sessions[x] == r.sessions[x])
  {}

  lemma HappenIsLater(w: World, e: Event)
    ensures Later(w.rows, Happen(w, e).rows)
  {
    if e.Continue? && e.call in w.calls && w.calls[e.call].Committing? && Claimable(w.rows, w.calls[e.call].token, w.now) {
      ResetLocks(w.rows, w.calls[e.call].token, w.calls[e.call].user, w.calls[e.call].password);
    }
    hide Reset;
  }

  lemma LaterTransitive(a: Rows, b: Rows, c: Rows)
    requires Later(a, b) && Later(b, c)
    ensures Later(a, c)
  {
    forall t <- a.tokens
      ensures t in c.tokens && c.tokens[t] == a.tokens[t].(consumed := c.tokens[t].consumed)
              && (a.tokens[t].consumed ==> c.tokens[t].consumed)
    {
      assert b.tokens[t] == a.tokens[t].(consumed := b.tokens[t].consumed);
    }
  }

  lemma {:induction false} RunIsLater(w: World, events: seq<Event>)
    ensures Later(w.rows, RunAll(w, events).rows)
    decreases |events|
  {
    if events != [] {
      var mid := RunAll(w, events[..|events| - 1]);
      RunIsLater(w, events[..|events| - 1]);
      HappenIsLater(mid, events[|events| - 1]);
      LaterTransitive(w.rows, mid.rows, Happen(mid, events[|events| - 1]).rows);
    }
    hide Happen, Later;
  }

  /** A step of a call changes the rows only when it makes the call succeed, and then only by the whole reset. */
  lemma FailureChangesNothing(w: World, c: nat, saves: bool)
    requires c in w.calls
    ensures var v := Advance(w, c, saves);
            && v.calls.Keys == w.calls.Keys && v.now == w.now
            && (v.rows != w.rows ==> w.calls[c].Committing? && v.calls[c].Succeeded?)
            && (w.calls[c].Committing? ==>
                  (v.calls[c].Succeeded? <==> Claimable(w.rows, w.calls[c].token, w.now) && saves)
                  && (v.calls[c].Succeeded? ==> v.rows == Reset(w.rows, w.calls[c].token, w.calls[c].user, w.calls[c].password)))
  {
    hide Reset;
  }

  // ---------------------------------------------------------------- over every interleaving

  /** A call that has read its token holds that token's own user; one that succeeded burnt it. */
  predicate CallHolds(r: Rows, c: Call) {
    match c
    case Checking(t, _, u) => t in r.tokens && r.tokens[t].user == u && r.tokens[t].purpose.ResetLink?
    case Committing(t, _, u) => t in r.tokens && r.tokens[t].user == u && r.tokens[t].purpose.ResetLink?
    case Succeeded(t, u) => t in r.tokens && r.tokens[t].user == u && r.tokens[t].consumed
    case _ => true
  }

  predicate SameSuccess(c: Call, d: Call) {
    c.Succeeded? && d.Succeeded? && c.token == d.token
  }

  ghost predicate Sound(w: World) {
    && (forall c <- w.calls :: CallHolds(w.rows, w.calls[c]))
    && (forall c, d :: c in w.calls && d in w.calls && SameSuccess(w.calls[c], w.calls[d]) ==> c == d)
  }

  ghost predicate Beginning(w: World) {
    w.calls == map[]
  }

  lemma CallsHoldLater(r: Rows, s: Rows, c: Call)
    requires Later(r, s) && CallHolds(r, c)
    ensures CallHolds(s, c)
  {}

  lemma AdvanceKeepsSound(w: World, c: nat, saves: bool)
    requires Sound(w) && c in w.calls
    ensures Sound(Advance(w, c, saves))
  {
    var v := Advance(w, c, saves);
    HappenIsLater(w, Continue(c, saves));
    FailureChangesNothing(w, c, saves);
    if w.calls[c].Committing? && Claimable(w.rows, w.calls[c].token, w.now) {
      ResetLocks(w.rows, w.calls[c].token, w.calls[c].user, w.calls[c].password);
    }
    hide Reset, Locked;
    forall d <- v.calls
      ensures CallHolds(v.rows, v.calls[d])
    {
      if d != c {
        CallsHoldLater(w.rows, v.rows, w.calls[d]);
      }
    }
  }

  lemma HappenKeepsSound(w: World, e: Event)
    requires Sound(w)
    ensures Sound(Happen(w, e))
  {
    if e.Continue? && e.call in w.calls {
      AdvanceKeepsSound(w, e.call, e.saves);
    } else {
      var v := Happen(w, e);
      HappenIsLater(w, e);
      hide Advance;
      forall d <- w.calls
        ensures CallHolds(v.rows, w.calls[d])
      {
        CallsHoldLater(w.rows, v.rows, w.calls[d]);
      }
    }
  }

  /** However many calls overlap, each token is claimed by at most one of them. */
  lemma {:induction false} EachTokenIsClaimedOnce(w: World, events: seq<Event>)
    requires Beginning(w)
    ensures Sound(RunAll(w, events))
    decreases |events|
  {
    if events != [] {
      EachTokenIsClaimedOnce(w, events[..|events| - 1]);
      HappenKeepsSound(RunAll(w, events[..|events| - 1]), events[|events| - 1]);
    }
    hide Happen;
  }

  /** A step that makes a call succeed leaves every earlier link and session of that user dead. */
  lemma SuccessLocks(w: World, c: nat, saves: bool)
    requires Sound(w) && c in w.calls && w.calls[c].Committing? && Advance(w, c, saves).calls[c].Succeeded?
    ensures Locked(Advance(w, c, saves).rows, w.calls[c].user)
    ensures Advance(w, c, saves).rows.passwords == w.rows.passwords[w.calls[c].user := Some(w.calls[c].password)]
  {
    ResetLocks(w.rows, w.calls[c].token, w.calls[c].user, w.calls[c].password);
  }

  /** A call on a burnt token that has not succeeded never will. */
  lemma {:induction false} BurntTokensStayDead(w: World, events: seq<Event>, c: nat, token: nat)
    requires token in w.rows.tokens && w.rows.tokens[token].consumed
    requires c in w.calls ==> !(w.calls[c].Succeeded? && w.calls[c].token == token)
    ensures var v := RunAll(w, events);
            c in v.calls ==> !(v.calls[c].Succeeded? && v.calls[c].token == token)
    decreases |events|
  {
    if events != [] {
      var mid := RunAll(w, events[..|events| - 1]);
      BurntTokensStayDead(w, events[..|events| - 1], c, token);
      RunIsLater(w, events[..|events| - 1]);
      NoLateSuccess(mid, events[|events| - 1], c, token);
    }
    hide Happen;
  }

  lemma NoLateSuccess(w: World, e: Event, c: nat, token: nat)
    requires token in w.rows.tokens && w.rows.tokens[token].consumed
    requires c in w.calls ==> !(w.calls[c].Succeeded? && w.calls[c].token == token)
    ensures c in Happen(w, e).calls ==> !(Happen(w, e).calls[c].Succeeded? && Happen(w, e).calls[c].token == token)
  {
    hide Reset, FindLiveToken, HasPassword;
  }

  /**
   After a successful reset no link issued to that user before it can ever succeed, whenever it was opened,
   and no session that existed then is ever valid again.
   */
  lemma OlderLinksNeverSucceed(w: World, c: nat, saves: bool, events: seq<Event>, older: nat, d: nat)
    requires Sound(w) && c in w.calls && w.calls[c].Committing? && Advance(w, c, saves).calls[c].Succeeded?
    requires older in w.rows.tokens && w.rows.tokens[older].user == w.calls[c].user && w.rows.tokens[older].purpose.ResetLink?
    requires d != c && (d in w.calls ==> !w.calls[d].Succeeded?)
    ensures var v := RunAll(Advance(w, c, saves), events);
            && (d in v.calls ==> !(v.calls[d].Succeeded? && v.calls[d].token == older))
            && (forall x <- w.rows.sessions :: w.rows.sessions[x].user == w.calls[c].user ==> x in v.rows.sessions && v.rows.sessions[x].revoked)
  {
    var locked := Advance(w, c, saves);
    SuccessLocks(w, c, saves);
    HappenIsLater(w, Continue(c, saves));
    FailureChangesNothing(w, c, saves);
    assert forall x <- w.calls :: x != c ==> locked.calls[x] == w.calls[x] by { OnlyItsCall(w, c, saves); }
    hide Reset, Advance;
    BurntTokensStayDead(locked, events, d, older);
    RunIsLater(locked, events);
  }

  lemma OnlyItsCall(w: World, c: nat, saves: bool)
    requires c in w.calls
    ensures forall x <- w.calls :: x != c ==> x in Advance(w, c, saves).calls && Advance(w, c, saves).calls[x] == w.calls[x]
  {
    hide Reset;
  }

  // ---------------------------------------------------------------- which links work, and until when

  /** A call opened and taken through its three steps with nothing in between. */
  function WholeCall(c: nat, token: nat, password: string): seq<Event> {
    [Start(c, token, password), Continue(c, true), Continue(c, true), Continue(c, true)]
  }

  lemma WholeCallRuns(w: World, c: nat, token: nat, password: string)
    ensures RunAll(w, WholeCall(c, token, password))
         == Happen(Happen(Happen(Happen(w, Start(c, token, password)), Continue(c, true)), Continue(c, true)), Continue(c, true))
  {
    var es := WholeCall(c, token, password);
    assert es[..3][..2] == es[..2] && es[..2][..1] == es[..1] && es[..1][..0] == [];
    assert RunAll(w, es[..1]) == Happen(w, es[0]);
    assert RunAll(w, es[..2]) == Happen(RunAll(w, es[..1]), es[1]);
    assert RunAll(w, es[..3]) == Happen(RunAll(w, es[..2]), es[2]);
    hide Happen;
  }

  /**
   On its own a call succeeds iff its link is an unused reset link of a user with a password and has not expired;
   then the password is the new one, and otherwise nothing has changed.
   */
  lemma ResetsIff(w: World, c: nat, token: nat, password: string)
    requires c !in w.calls
    ensures var v := RunAll(w, WholeCall(c, token, password));
            && c in v.calls
            && (v.calls[c].Succeeded? <==> Resettable(w.rows, token) && w.now < w.rows.tokens[token].expiresAt)
            && (v.calls[c].Succeeded? ==> v.rows.passwords == w.rows.passwords[w.rows.tokens[token].user := Some(password)])
            && (!v.calls[c].Succeeded? ==> v.rows == w.rows)
  {
    WholeCallRuns(w, c, token, password);
    if Resettable(w.rows, token) {
      ResetLocks(w.rows, token, w.rows.tokens[token].user, password);
    }
    hide Reset, RunAll;
  }

  lemma PasswordsStay(w: World, e: Event, user: nat)
    requires user in w.rows.passwords && w.rows.passwords[user].Some?
    ensures user in Happen(w, e).rows.passwords && Happen(w, e).rows.passwords[user].Some?
    ensures Happen(w, e).now >= w.now
  {
    if e.Continue? && e.call in w.calls && w.calls[e.call].Committing? && Claimable(w.rows, w.calls[e.call].token, w.now) {
      ResetLocks(w.rows, w.calls[e.call].token, w.calls[e.call].user, w.calls[e.call].password);
    }
    hide Reset, FindLiveToken, HasPassword;
  }

  lemma {:induction false} PasswordsStayThroughout(w: World, events: seq<Event>, user: nat)
    requires user in w.rows.passwords && w.rows.passwords[user].Some?
    ensures user in RunAll(w, events).rows.passwords && RunAll(w, events).rows.passwords[user].Some?
    ensures RunAll(w, events).now >= w.now
    decreases |events|
  {
    if events != [] {
      PasswordsStayThroughout(w, events[..|events| - 1], user);
      PasswordsStay(RunAll(w, events[..|events| - 1]), events[|events| - 1], user);
    }
    hide Happen;
  }

  /** A reset link for the user, issued now. */
  function Issued(w: World, token: nat, user: nat): World {
    Happen(w, Issue(token, user, ResetLink))
  }

  /** A link is only issued to a user with a password, unused and good for half an hour; nothing else changes. */
  lemma LinkIsIssuedIff(w: World, token: nat, user: nat)
    requires token !in w.rows.tokens
    ensures Issued(w, token, user) ==
              if user in w.rows.passwords && w.rows.passwords[user].Some?
              then w.(rows := w.rows.(tokens := w.rows.tokens[token := Token(user, ResetLink, w.now + 1800000, false)])) else w
  {}

  /** What a link is once issued, whatever happens after. */
  lemma IssuedLink(w: World, token: nat, user: nat, events: seq<Event>)
    requires token !in w.rows.tokens && user in w.rows.passwords && w.rows.passwords[user].Some?
    ensures var r := RunAll(Issued(w, token, user), events).rows;
            && token in r.tokens && r.tokens[token].user == user && r.tokens[token].purpose == ResetLink
            && r.tokens[token].expiresAt == w.now + 1800000
            && user in r.passwords && r.passwords[user].Some?
  {
    LinkIsIssuedIff(w, token, user);
    RunIsLater(Issued(w, token, user), events);
    PasswordsStayThroughout(Issued(w, token, user), events, user);
    hide RunAll;
  }

  /** Whatever has happened since, a link that is still unused works for half an hour from its issue and then no more. */
  lemma LinksWorkForHalfAnHour(w: World, token: nat, user: nat, events: seq<Event>, c: nat, password: string)
    requires token !in w.rows.tokens && user in w.rows.passwords && w.rows.passwords[user].Some?
    requires var v := RunAll(Issued(w, token, user), events);
             c !in v.calls && token in v.rows.tokens && !v.rows.tokens[token].consumed
    ensures var v := RunAll(Issued(w, token, user), events);
            var reset := RunAll(v, WholeCall(c, token, password));
            && c in reset.calls && (reset.calls[c].Succeeded? <==> v.now < w.now + 1800000)
            && (reset.calls[c].Succeeded? ==> reset.rows.passwords == v.rows.passwords[user := Some(password)])
            && (!reset.calls[c].Succeeded? ==> reset.rows == v.rows)
  {
    IssuedLink(w, token, user, events);
    ResetsIff(RunAll(Issued(w, token, user), events), c, token, password);
    hide RunAll, WholeCall, Happen;
  }

  lemma NoSuccessOnceExpired(w: World, e: Event, token: nat, c: nat)
    requires token in w.rows.tokens && w.now >= w.rows.tokens[token].expiresAt
    requires c in w.calls ==> !(w.calls[c].Succeeded? && w.calls[c].token == token)
    ensures var v := Happen(w, e);
            && token in v.rows.tokens && v.now >= v.rows.tokens[token].expiresAt
            && (c in v.calls ==> !(v.calls[c].Succeeded? && v.calls[c].token == token))
  {
    HappenIsLater(w, e);
    hide Reset, FindLiveToken, HasPassword;
  }

  /** Under every schedule, once a link has expired no call that has not succeeded on it yet ever does. */
  lemma {:induction false} ExpiredLinksNeverSucceed(w: World, events: seq<Event>, token: nat, c: nat)
    requires token in w.rows.tokens && w.now >= w.rows.tokens[token].expiresAt
    requires c in w.calls ==> !(w.calls[c].Succeeded? && w.calls[c].token == token)
    ensures var v := RunAll(w, events);
            && token in v.rows.tokens && v.now >= v.rows.tokens[token].expiresAt
            && (c in v.calls ==> !(v.calls[c].Succeeded? && v.calls[c].token == token))
    decreases |events|
  {
    if events != [] {
      ExpiredLinksNeverSucceed(w, events[..|events| - 1], token, c);
      NoSuccessOnceExpired(RunAll(w, events[..|events| - 1]), events[|events| - 1], token, c);
    }
    hide Happen;
  }

  /** So half an hour after a link was issued nobody resets a password with it any more. */
  lemma NobodyResetsAfterHalfAnHour(w: World, token: nat, user: nat, events: seq<Event>, later: seq<Event>, c: nat)
    requires token !in w.rows.tokens && user in w.rows.passwords && w.rows.passwords[user].Some?
    requires var v := RunAll(Issued(w, token, user), events);
             v.now >= w.now + 1800000 && (c in v.calls ==> !(v.calls[c].Succeeded? && v.calls[c].token == token))
    ensures var v := RunAll(RunAll(Issued(w, token, user), events), later);
            c in v.calls ==> !(v.calls[c].Succeeded? && v.calls[c].token == token)
  {
    IssuedLink(w, token, user, events);
    ExpiredLinksNeverSucceed(RunAll(Issued(w, token, user), events), later, token, c);
    hide RunAll, Happen;
  }
}
