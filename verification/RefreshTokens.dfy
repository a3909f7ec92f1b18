/**
 * Refresh-token rotation: a token is verified, revoked if still active, and only then
 * replaced; logout revokes; a sweep drops old revocations. Times are in milliseconds.
 */
module RefreshTokens {
  import opened Common

  const DAY_MS := 24 * 60 * 60 * 1000
  const REVOKED_TOKEN_RETENTION_DAYS := 30

  datatype Revocation = Revocation(expiresAt: int, revokedAt: int)

  /** A configured retention counts when it is a positive number, and is cut to whole days. */
  function RetentionDays(configured: Option<real>, fallback: nat): (days: nat)
    ensures configured.Some? && configured.value > 0.0 ==> days as real <= configured.value < days as real + 1.0
    ensures configured.None? || configured.value <= 0.0 ==> days == fallback
  {
    if configured.Some? && configured.value > 0.0 then configured.value.Floor else fallback
  }

  /** A retention below one day is cut to none at all. */
  lemma RetentionIsZeroIff(configured: Option<real>)
    ensures RetentionDays(configured, REVOKED_TOKEN_RETENTION_DAYS) == 0 <==>
            configured.Some? && 0.0 < configured.value < 1.0
  {
  }

  predicate Sweepable(r: Revocation, cutoff: int) {
    r.expiresAt < cutoff && r.revokedAt < cutoff
  }

  /**
   * The cleanup is the sweep of the state machine below, for a retention of that many days:
   * thirty of them when none is configured.
   */
  lemma CleanupIsSweep(s: State, now: int, configured: Option<real>)
    requires Known(s) && now <= s.now && s.retention == RetentionDays(configured, 30) * 86_400_000
    ensures Step(s, Sweep(now)).revoked == Swept(s.revoked, Cutoff(now, configured))
  {
  }

  /** Insert unless present. */
  function Revoke(rows: map<int, Revocation>, jti: int, expiresAt: int, now: int): map<int, Revocation> {
    if jti in rows then rows else rows[jti := Revocation(expiresAt, now)]
  }

  class RevokedTokens {
    var rows: map<int, Revocation>

    constructor ()
      ensures rows == map[]
    {
      rows := map[];
    }

    /** One check-and-set: at most one of any number of callers is told it did the revoking. */
    method RevokeRefreshTokenIfActive(jti: int, expiresAt: int, now: int) returns (revoked: bool)
      modifies this
      ensures revoked <==> jti !in old(rows)
      ensures rows == if jti in old(rows) then old(rows) else old(rows)[jti := Revocation(expiresAt, now)]
    {
      if jti in rows {
        return false;
      }
      rows := rows[jti := Revocation(expiresAt, now)];
      revoked := true;
    }

    method RevokeRefreshToken(jti: int, expiresAt: int, now: int)
      modifies this
      ensures jti in rows && rows == Revoke(old(rows), jti, expiresAt, now)
    {
      if jti !in rows {
        rows := rows[jti := Revocation(expiresAt, now)];
      }
    }

    method CleanupExpiredRows(now: int, configured: Option<real>) returns (deleted: nat)
      modifies this
      ensures rows == Swept(old(rows), Cutoff(now, configured))
      ensures forall jti :: jti in old(rows) && (old(rows)[jti].expiresAt >= now || old(rows)[jti].revokedAt >= now) ==>
                jti in rows
      ensures forall jti :: jti in rows ==> jti in old(rows) && rows[jti] == old(rows)[jti]
      ensures var cutoff := now - RetentionDays(configured, 30) * 86_400_000;
              forall jti :: jti in old(rows) ==>
                (jti !in rows <==> old(rows)[jti].expiresAt < cutoff && old(rows)[jti].revokedAt < cutoff)
      ensures deleted == |old(rows)| - |rows|
    {
      var cutoff := Cutoff(now, configured);
      SweptCounts(rows, cutoff);
      deleted := |Gone(rows, cutoff)|;
      rows := Swept(rows, cutoff);
    }

    /** The awaits of a request: other requests and the sweep may rewrite the table. */
    method Elapse()
      modifies this
    {
      rows := *;
    }
  }

  /**
   * `/refresh` for a token checked at `at`: the new pair is minted only after this very call
   * has revoked the old token, in the table as it is by then.
   */
  method Refresh(table: RevokedTokens, jti: int, expiresAt: int, at: int, userActive: bool, now: int, newJti: int)
    returns (minted: Option<int>, ghost between: map<int, Revocation>)
    modifies table
    ensures minted.Some? <==> at < expiresAt && userActive && jti !in between
    ensures minted.Some? ==> minted.value == newJti && table.rows == between[jti := Revocation(expiresAt, now)]
    ensures minted.None? ==> table.rows == between
    ensures at >= expiresAt ==> table.rows == old(table.rows)
  {
    between := table.rows;
    if at >= expiresAt {
      return None, between;
    }
    table.Elapse();
    between := table.rows;
    if !userActive {
      return None, between;
    }
    var rotated := table.RevokeRefreshTokenIfActive(jti, expiresAt, now);
    minted := if rotated then Some(newJti) else None;
  }

  /** `/logout`: an expired or invalid token is ignored; afterwards a valid one is on record. */
  method LogOut(table: RevokedTokens, jti: int, expiresAt: int, at: int, now: int)
    returns (ghost between: map<int, Revocation>)
    modifies table
    ensures at < expiresAt ==>
              && jti in table.rows
              && table.rows == if jti in between then between else between[jti := Revocation(expiresAt, now)]
    ensures at >= expiresAt ==> table.rows == old(table.rows)
  {
    between := table.rows;
    if at >= expiresAt {
      return;
    }
    table.Elapse();
    between := table.rows;
    table.RevokeRefreshToken(jti, expiresAt, now);
  }

  function Cutoff(now: int, configured: Option<real>): (cutoff: int)
    ensures cutoff <= now
  {
    now - RetentionDays(configured, REVOKED_TOKEN_RETENTION_DAYS) * DAY_MS
  }

  function Gone(rows: map<int, Revocation>, cutoff: int): set<int> {
    set jti | jti in rows && Sweepable(rows[jti], cutoff)
  }

  lemma SweptCounts(rows: map<int, Revocation>, cutoff: int)
    ensures |Gone(rows, cutoff)| == |rows| - |Swept(rows, cutoff)|
  {
    var kept := Swept(rows, cutoff);
    assert kept.Keys + Gone(rows, cutoff) == rows.Keys && kept.Keys !! Gone(rows, cutoff);
    assert |kept.Keys| == |kept| && |rows.Keys| == |rows|;
  }

  /** A second sweep with the same cutoff finds nothing. */
  lemma SweptOnce(rows: map<int, Revocation>, cutoff: int)
    ensures Gone(Swept(rows, cutoff), cutoff) == {} && Swept(Swept(rows, cutoff), cutoff) == Swept(rows, cutoff)
  {
  }

  function Swept(rows: map<int, Revocation>, cutoff: int): map<int, Revocation> {
    map jti | jti in rows && !Sweepable(rows[jti], cutoff) :: rows[jti]
  }

  /* ---- every interleaving of refreshes, logouts and sweeps ---- */

  /** An issued token; `parent` is the one it replaced. */
  datatype Token = Token(expiresAt: int, parent: Option<int>)

  datatype Request = Verified(jti: int, at: int) | Rotating(jti: int)

  datatype State = State(
    now: int,
    retention: nat,
    tokens: map<int, Token>,
    revoked: map<int, Revocation>,
    requests: map<int, Request>)

  /** `Sweep` deletes with a cutoff computed at `at`, a moment that may be past by then. */
  datatype Action =
    | Tick(ms: nat)
    | Login(jti: int, ttl: nat)
    | Verify(req: int, jti: int)
    | RevokeIfActive(req: int)
    | Mint(req: int, jti: int, ttl: nat)
    | Logout(req: int)
    | Abandon(req: int)
    | Sweep(at: int)

  predicate Enabled(s: State, a: Action) {
    match a
    case Login(jti, _) => jti !in s.tokens
    case Verify(req, jti) => req !in s.requests && jti in s.tokens && s.now < s.tokens[jti].expiresAt
    case RevokeIfActive(req) => req in s.requests && s.requests[req].Verified?
    case Mint(req, jti, _) => req in s.requests && s.requests[req].Rotating? && jti !in s.tokens
    case Logout(req) => req in s.requests && s.requests[req].Verified?
    case Abandon(req) => req in s.requests
    case Sweep(at) => at <= s.now
    case _ => true
  }

  function Step(s: State, a: Action): State
    requires Enabled(s, a) && Known(s)
  {
    match a
    case Tick(ms) => s.(now := s.now + ms)
    case Login(jti, ttl) => s.(tokens := s.tokens[jti := Token(s.now + ttl, None)])
    case Verify(req, jti) => s.(requests := s.requests[req := Verified(jti, s.now)])
    case RevokeIfActive(req) =>
      var jti := s.requests[req].jti;
      if jti in s.revoked then s.(requests := s.requests - {req})
      else
        s.(revoked := Revoke(s.revoked, jti, s.tokens[jti].expiresAt, s.now),
           requests := s.requests[req := Rotating(jti)])
    case Mint(req, jti, ttl) =>
      s.(tokens := s.tokens[jti := Token(s.now + ttl, Some(s.requests[req].jti))], requests := s.requests - {req})
    case Logout(req) =>
      var jti := s.requests[req].jti;
      s.(requests := s.requests - {req}, revoked := Revoke(s.revoked, jti, s.tokens[jti].expiresAt, s.now))
    case Abandon(req) => s.(requests := s.requests - {req})
    case Sweep(at) => s.(revoked := Swept(s.revoked, at - s.retention))
  }

  /** Requests and revocations are about issued tokens, and requests verified them in time. */
  ghost predicate Known(s: State) {
    && (forall req :: req in s.requests ==> s.requests[req].jti in s.tokens)
    && (forall req :: req in s.requests && s.requests[req].Verified? ==>
          s.requests[req].at < s.tokens[s.requests[req].jti].expiresAt)
    && (forall jti :: jti in s.revoked ==>
          jti in s.tokens && s.revoked[jti].expiresAt == s.tokens[jti].expiresAt)
    && (forall jti :: jti in s.tokens && s.tokens[jti].parent.Some? ==> s.tokens[jti].parent.value in s.tokens)
  }

  lemma StepKeepsKnown(s: State, a: Action)
    requires Known(s) && Enabled(s, a)
    ensures Known(Step(s, a))
  {
  }

  /** A sweep leaves the standing of every token that could still be presented as it was. */
  lemma SweepIsInvisible(s: State, at: int, jti: int)
    requires Known(s) && Enabled(s, Sweep(at)) && jti in s.tokens && s.now <= s.tokens[jti].expiresAt
    ensures jti in Step(s, Sweep(at)).revoked <==> jti in s.revoked
  {
  }

  /** The last moment at which the revocation of a spent token is certainly still on record. */
  function Deadline(s: State, jti: int): int
    requires jti in s.tokens
  {
    s.tokens[jti].expiresAt + s.retention
  }

  /** A request revokes its token by the token's own deadline. */
  predicate Prompt(s: State, a: Action) {
    a.RevokeIfActive? && a.req in s.requests && s.requests[a.req].jti in s.tokens ==>
      s.now <= Deadline(s, s.requests[a.req].jti)
  }

  ghost predicate Reaches(s: State, acts: seq<Action>, t: State)
    decreases |acts|
  {
    if acts == [] then t == s
    else Known(s) && Enabled(s, acts[0]) && Reaches(Step(s, acts[0]), acts[1..], t)
  }

  ghost predicate AlwaysPrompt(s: State, acts: seq<Action>)
    decreases |acts|
  {
    acts == []
    || (Prompt(s, acts[0]) && (Known(s) && Enabled(s, acts[0]) ==> AlwaysPrompt(Step(s, acts[0]), acts[1..])))
  }

  /** The token is being replaced, or has been. */
  predicate Spent(s: State, jti: int) {
    || (exists req :: req in s.requests && s.requests[req] == Rotating(jti))
    || (exists child :: child in s.tokens && s.tokens[child].parent == Some(jti))
  }

  ghost predicate OneSuccessor(s: State) {
    && (forall a, b, p ::
          a in s.tokens && b in s.tokens && s.tokens[a].parent == Some(p) && s.tokens[b].parent == Some(p) ==>
          a == b)
    && (forall q, r ::
          q in s.requests && r in s.requests && s.requests[q].Rotating? && s.requests[r] == s.requests[q] ==>
          q == r)
    && (forall q, c :: q in s.requests && c in s.tokens && s.requests[q].Rotating? ==>
          s.tokens[c].parent != Some(s.requests[q].jti))
  }

  /** A spent token is still on record, or is so long expired that no prompt request can hold it. */
  ghost predicate Guarded(s: State) {
    forall jti {:trigger Spent(s, jti)} :: jti in s.tokens && Spent(s, jti) ==>
      jti in s.revoked || Deadline(s, jti) < s.now
  }

  ghost predicate Safe(s: State) {
    Known(s) && OneSuccessor(s) && Guarded(s)
  }

  lemma StepKeepsGuarded(s: State, a: Action)
    requires Safe(s) && Enabled(s, a)
    ensures Guarded(Step(s, a))
  {
    var t := Step(s, a);
    forall jti {:trigger Spent(t, jti)} | jti in t.tokens && Spent(t, jti)
      ensures jti in t.revoked || Deadline(t, jti) < t.now
    {
      if a.RevokeIfActive? && s.requests[a.req].jti == jti {
      } else if jti in s.tokens {
        SpentBefore(s, a, jti);
      }
    }
  }

  lemma SpentBefore(s: State, a: Action, jti: int)
    requires Safe(s) && Enabled(s, a) && Spent(Step(s, a), jti)
    requires !(a.RevokeIfActive? && s.requests[a.req].jti == jti)
    ensures Spent(s, jti)
  {
  }

  /** Winning the check-and-set means nobody has replaced the token or is about to. */
  lemma WinnerIsFirst(s: State, req: int)
    requires Safe(s) && Enabled(s, RevokeIfActive(req)) && Prompt(s, RevokeIfActive(req))
    ensures s.requests[req].jti !in s.revoked ==> !Spent(s, s.requests[req].jti)
  {
  }

  lemma RevokeKeepsOneSuccessor(s: State, req: int)
    requires Safe(s) && Enabled(s, RevokeIfActive(req)) && Prompt(s, RevokeIfActive(req))
    ensures OneSuccessor(Step(s, RevokeIfActive(req)))
  {
    WinnerIsFirst(s, req);
    var t, jti := Step(s, RevokeIfActive(req)), s.requests[req].jti;
    if jti !in s.revoked {
      assert forall q :: q in s.requests ==> s.requests[q] != Rotating(jti);
      assert forall c :: c in s.tokens ==> s.tokens[c].parent != Some(jti);
    }
  }

  lemma MintKeepsOneSuccessor(s: State, req: int, jti: int, ttl: nat)
    requires Safe(s) && Enabled(s, Mint(req, jti, ttl))
    ensures OneSuccessor(Step(s, Mint(req, jti, ttl)))
  {
  }

  lemma StepKeepsSafe(s: State, a: Action)
    requires Safe(s) && Enabled(s, a) && Prompt(s, a)
    ensures Safe(Step(s, a))
  {
    StepKeepsKnown(s, a);
    StepKeepsGuarded(s, a);
    StepKeepsOneSuccessor(s, a);
  }

  lemma StepKeepsOneSuccessor(s: State, a: Action)
    requires Safe(s) && Enabled(s, a) && Prompt(s, a)
    ensures OneSuccessor(Step(s, a))
  {
    match a
    case RevokeIfActive(req) => RevokeKeepsOneSuccessor(s, req);
    case Mint(req, jti, ttl) => MintKeepsOneSuccessor(s, req, jti, ttl);
    case _ => OthersKeepOneSuccessor(s, a);
  }

  lemma OthersKeepOneSuccessor(s: State, a: Action)
    requires Safe(s) && Enabled(s, a) && !a.RevokeIfActive? && !a.Mint?
    ensures OneSuccessor(Step(s, a))
  {
  }

  /**
   * Single use for ever: whatever refreshes, logouts, crashes and sweeps interleave, no
   * token has two successors, so every family of tokens is a path. The one thing asked is
   * that a request still revoking its token does so before the token's expiry plus the
   * retention has passed.
   */
  lemma {:induction false} SingleUse(s: State, acts: seq<Action>, t: State)
    requires Safe(s) && Reaches(s, acts, t) && AlwaysPrompt(s, acts)
    ensures Safe(t)
    ensures forall a, b, p ::
              a in t.tokens && b in t.tokens && t.tokens[a].parent == Some(p) && t.tokens[b].parent == Some(p) ==>
              a == b
    decreases |acts|
  {
    if acts != [] {
      StepKeepsSafe(s, acts[0]);
      SingleUse(Step(s, acts[0]), acts[1..], t);
    }
  }

  /** Nothing issued yet. */
  lemma FreshIsSafe(now: int, retention: nat)
    ensures Safe(State(now, retention, map[], map[], map[]))
  {
  }

  /** Request `q` replaces the token by `x`; once the sweep has dropped the record, `r` replaces it by `y`. */
  function LateRun(s: State, q: int, r: int, jti: int, x: int, y: int): seq<Action>
    requires jti in s.tokens && s.now < s.tokens[jti].expiresAt
  {
    var wait := Deadline(s, jti) + 1 - s.now;
    [RevokeIfActive(q), Mint(q, x, 1), Tick(wait), Sweep(s.now + wait), RevokeIfActive(r), Mint(r, y, 1)]
  }

  /**
   * The deadline is exact. Of two requests holding one active token, one revokes it in time,
   * and the other, one millisecond past the token's deadline, replaces it again.
   */
  lemma {:induction false} LatenessForksFamily(s: State, q: int, r: int, jti: int, x: int, y: int)
    requires Known(s) && jti in s.tokens && s.now < s.tokens[jti].expiresAt && jti !in s.revoked
    requires q != r && q in s.requests && r in s.requests
    requires s.requests[q] == Verified(jti, s.now) && s.requests[r] == Verified(jti, s.now)
    requires x !in s.tokens && y !in s.tokens && x != y
    ensures exists t :: Reaches(s, LateRun(s, q, r, jti, x, y), t)
              && x in t.tokens && y in t.tokens && t.tokens[x].parent == t.tokens[y].parent == Some(jti)
  {
    hide Known;
    var acts := LateRun(s, q, r, jti, x, y);
    var s1 := KnownStep(s, acts[0]);
    var s2 := KnownStep(s1, acts[1]);
    var s3 := KnownStep(s2, acts[2]);
    assert s3.revoked[jti] == Revocation(s.tokens[jti].expiresAt, s.now) && s3.requests[r] == s.requests[r];
    assert s3.tokens[x].parent == Some(jti);
    var s6 := SecondReplacement(s3, r, jti, x, y);
    assert acts[3..] == [Sweep(s3.now), RevokeIfActive(r), Mint(r, y, 1)];
    ReachesNext(s2, acts, 2, s6);
    ReachesNext(s1, acts, 1, s6);
    ReachesNext(s, acts, 0, s6);
    assert acts[0..] == acts;
  }

  /** Once the record of a replaced token can be swept, a request that still holds the token replaces it again. */
  lemma {:induction false} SecondReplacement(s: State, r: int, jti: int, x: int, y: int) returns (t: State)
    requires Known(s) && jti in s.revoked && Sweepable(s.revoked[jti], s.now - s.retention)
    requires r in s.requests && s.requests[r].Verified? && s.requests[r].jti == jti
    requires x in s.tokens && s.tokens[x].parent == Some(jti) && y !in s.tokens
    ensures Reaches(s, [Sweep(s.now), RevokeIfActive(r), Mint(r, y, 1)], t)
    ensures x in t.tokens && y in t.tokens && t.tokens[x].parent == t.tokens[y].parent == Some(jti)
  {
    hide Known;
    var acts := [Sweep(s.now), RevokeIfActive(r), Mint(r, y, 1)];
    var s1 := KnownStep(s, acts[0]);
    assert jti !in s1.revoked;
    var s2 := KnownStep(s1, acts[1]);
    t := KnownStep(s2, acts[2]);
    ReachesLast(t);
    ReachesNext(s2, acts, 2, t);
    ReachesNext(s1, acts, 1, t);
    ReachesNext(s, acts, 0, t);
    assert acts[0..] == acts;
  }

  lemma KnownStep(s: State, a: Action) returns (t: State)
    requires Known(s) && Enabled(s, a)
    ensures t == Step(s, a) && Known(t)
  {
    StepKeepsKnown(s, a);
    t := Step(s, a);
  }

  lemma ReachesLast(t: State)
    ensures Reaches(t, [], t)
  {
  }

  lemma ReachesNext(s: State, acts: seq<Action>, k: nat, t: State)
    requires k < |acts| && Known(s) && Enabled(s, acts[k]) && Reaches(Step(s, acts[k]), acts[k + 1..], t)
    ensures Reaches(s, acts[k..], t)
  {
  }
}
