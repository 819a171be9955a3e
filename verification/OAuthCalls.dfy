/**
 The batches of oauth.ts statement by statement, and its calls from start to end when no other call
 comes between their statements.  OAuthGrant speaks about every interleaving.
 */
module OAuthCalls {
  import opened Common
  import opened OAuthGrant

  /** Both rows of a pair just issued: usable, and rotated into nothing. */
  ghost predicate UsablePair(tokens: map<Hash, Token>, access: Hash, refresh: Hash) {
    && access in tokens && tokens[access] == Token(Access, false, None)
    && refresh in tokens && tokens[refresh] == Token(Refresh, false, None)
  }

  /** A live token's check and batch succeed, and their call then holds the next token of the chain. */
  lemma LiveRotation(g: Grant, call: CallId, t: Hash, access: Hash, refresh: Hash)
    requires Inv(g) && call in g.calls && g.calls[call] == TokenRead(t) && LiveRefresh(g.tokens, t) && t in g.chain
    requires FreshPair(g.tokens, access, refresh)
    ensures var checked := Apply(g, CheckToken(call));
      var rotated := Rotate(checked, call, t, access, refresh);
      && call in checked.calls && checked.calls[call] == TokenChecked(t) && Inv(rotated)
      && call in rotated.calls && rotated.calls[call] == Rotated(t, access, refresh)
      && rotated.chain == g.chain + [refresh] && !rotated.revoked && UsablePair(rotated.tokens, access, refresh)
      && t in rotated.tokens && rotated.tokens[t] == Token(Refresh, true, Some(refresh))
      && rotated.tokens - {t, access, refresh} == g.tokens - {t}
  {
    ApplyKeeps(g, CheckToken(call));
    RotateKeeps(Apply(g, CheckToken(call)), call, t, access, refresh);
  }

  /** The tokens of a finished rotation leave. */
  lemma RotationLeaves(g: Grant, call: CallId, t: Hash, access: Hash, refresh: Hash)
    requires Inv(g) && call in g.calls && g.calls[call] == Rotated(t, access, refresh)
    ensures var g' := Apply(g, Respond(call));
      && Inv(g') && g'.chain == g.chain && refresh in g'.handedOut && access in g'.handedAccess
      && g'.tokens == g.tokens && g'.revoked == g.revoked && g'.codeUsed == g.codeUsed
  {
    ApplyKeeps(g, Respond(call));
  }

  /** The rows of one grant, with the history that the theorems speak of. */
  class GrantRows {
    var db: Grant

    /** `createAuthorizationCode`: the grant and its code go in together. */
    constructor ()
      ensures db == Authorized && Inv(db)
    {
      db := Authorized;
    }

    /**
     The four statements of `issueTokenPair`.  A negative marker claims the code, lets the two
     inserts through, and is then replaced by the time; it is never seen outside the batch.
     */
    method IssueTokenPair(call: CallId, access: Hash, refresh: Hash, marker: int, now: Time) returns (ok: bool)
      requires Inv(db) && call in db.calls && db.calls[call] == CodeChecked && marker < 0
      modifies this
      ensures db == Issue(old(db), call, access, refresh, now) && Inv(db)
      ensures ok <==> old(db).codeUsed.None? && FreshPair(old(db).tokens, access, refresh)
      ensures !ok ==> db == old(db)
      ensures ok ==>
        && db.codeUsed == Some(now) && db.chain == [refresh] && db.revoked == old(db).revoked
        && db.calls == old(db).calls[call := Issued(access, refresh)]
        && UsablePair(db.tokens, access, refresh) && db.tokens - {access, refresh} == old(db).tokens
    {
      IssueKeeps(db, call, access, refresh, now);
      var used, tokens := db.codeUsed, db.tokens;
      var changes := [0, 0, 0, 0];
      if used.None? {
        used, changes := Some(marker), changes[0 := 1];
      }
      if used == Some(marker) {
        if access in tokens {
          return false;
        }
        tokens, changes := tokens[access := Token(Access, false, None)], changes[1 := 1];
      }
      if used == Some(marker) {
        if refresh in tokens {
          return false;
        }
        tokens, changes := tokens[refresh := Token(Refresh, false, None)], changes[2 := 1];
      }
      if used == Some(marker) {
        used, changes := Some(now), changes[3 := 1];
      }
      ok := changes == [1, 1, 1, 1];
      if ok {
        db := db.(codeUsed := used, tokens := tokens, chain := [refresh],
            calls := db.calls[call := Issued(access, refresh)]);
      }
    }

    /** The three statements of `revokeGrant`; a code or token already closed keeps its time. */
    method RevokeAll(now: Time)
      modifies this
      ensures db == Revoke(old(db), now)
      ensures db.revoked && db.tokens.Keys == old(db).tokens.Keys
      ensures forall t :: t in db.tokens ==> db.tokens[t] == old(db).tokens[t].(revoked := true)
      ensures db.codeUsed == if old(db).codeUsed.None? then Some(now) else old(db).codeUsed
    {
      var tokens: map<Hash, Token> := map[];
      var left := db.tokens.Keys;
      while left != {}
        invariant left <= db.tokens.Keys && tokens.Keys == db.tokens.Keys - left
        invariant forall t :: t in tokens ==> tokens[t] == db.tokens[t].(revoked := true)
        invariant db == old(db)
        decreases |left|
      {
        var t :| t in left;
        tokens := tokens[t := db.tokens[t].(revoked := true)];
        left := left - {t};
      }
      assert tokens == AllRevoked(db.tokens);
      db := db.(revoked := true, tokens := tokens, codeUsed := if db.codeUsed.None? then Some(now) else db.codeUsed);
    }

    /** The three statements of rotation's batch, and its test of the first one's changes. */
    method RotateRows(call: CallId, t: Hash, access: Hash, refresh: Hash) returns (won: bool)
      requires call in db.calls
      modifies this
      ensures db == Rotate(old(db), call, t, access, refresh)
      ensures won <==> FreshPair(old(db).tokens, access, refresh) && LiveRefresh(old(db).tokens, t)
      ensures FreshPair(old(db).tokens, access, refresh) ==>
        && UsablePair(db.tokens, access, refresh)
        && db.tokens - {access, refresh}
           == if won then old(db).tokens[t := Token(Refresh, true, Some(refresh))] else old(db).tokens
    {
      var tokens := db.tokens;
      var changed := LiveRefresh(tokens, t);
      if changed {
        tokens := tokens[t := Token(Refresh, true, Some(refresh))];
      }
      if access in tokens || refresh in tokens || access == refresh {
        return false;
      }
      tokens := tokens[access := Token(Access, false, None)];
      tokens := tokens[refresh := Token(Refresh, false, None)];
      if changed {
        db := db.(tokens := tokens, chain := db.chain + [refresh],
            calls := db.calls[call := Rotated(t, access, refresh)]);
      } else {
        db := db.(tokens := tokens, calls := db.calls[call := MustRevoke(t)]);
      }
      return changed;
    }

    /** One statement. */
    method Take(step: Step)
      requires Inv(db)
      modifies this
      ensures db == Apply(old(db), step) && Inv(db)
    {
      ApplyKeeps(db, step);
      db := Apply(db, step);
    }

    /** A code is good for one pair of tokens, and for none once its grant is revoked. */
    method ExchangeAuthorizationCode(call: CallId, access: Hash, refresh: Hash, marker: int, now: Time)
      returns (r: Option<Hash>)
      requires Inv(db) && call !in db.calls && marker < 0
      modifies this
      ensures Inv(db)
      ensures r.Some? <==> old(db).codeUsed.None? && FreshPair(old(db).tokens, access, refresh)
      ensures r.Some? ==>
        && r.value == refresh && db.chain == [refresh] && db.codeUsed == Some(now)
        && refresh in db.handedOut && access in db.handedAccess
        && !db.revoked && UsablePair(db.tokens, access, refresh) && db.tokens - {access, refresh} == old(db).tokens
      ensures r.None? ==> db == old(db).(calls := db.calls)
    {
      if db.codeUsed.Some? {
        return None;
      }
      NothingIssued(db);
      Take(ReadCode(call));
      Take(CheckCode(call));
      var ok := IssueTokenPair(call, access, refresh, marker, now);
      if !ok {
        return None;
      }
      Take(Respond(call));
      return Some(refresh);
    }

    /** Rotation past its first read of a live token. */
    method RotateLive(call: CallId, t: Hash, access: Hash, refresh: Hash)
      requires Inv(db) && call in db.calls && db.calls[call] == TokenRead(t) && LiveRefresh(db.tokens, t)
        && t in db.chain
      requires FreshPair(db.tokens, access, refresh)
      modifies this
      ensures Inv(db) && db.chain == old(db).chain + [refresh] && refresh in db.handedOut && access in db.handedAccess
      ensures !db.revoked && UsablePair(db.tokens, access, refresh)
      ensures t in db.tokens && db.tokens[t] == Token(Refresh, true, Some(refresh))
      ensures db.tokens - {t, access, refresh} == old(db).tokens - {t}
    {
      LiveRotation(db, call, t, access, refresh);
      Take(CheckToken(call));
      var _ := RotateRows(call, t, access, refresh);
      RotationLeaves(db, call, t, access, refresh);
      Take(Respond(call));
    }

    /** Rotation's answer to a token that is dead or expired. */
    method RefuseToken(call: CallId, t: Hash, stage: Stage, now: Time)
      requires Inv(db) && call in db.calls && db.calls[call] == stage && (stage == MustRevoke(t) || stage == Refused(t))
      modifies this
      ensures Inv(db) && db.revoked && db.chain == old(db).chain
    {
      assert StageOk(db.tokens, db.chain, db.revoked, stage);
      if stage.MustRevoke? {
        Take(FinishRevoke(call, now));
      }
    }

    /** A live token is exchanged for the next of the chain; a dead one ends its whole grant. */
    method RotateRefreshToken(call: CallId, t: Hash, expired: bool, access: Hash, refresh: Hash, now: Time)
      returns (r: Option<Hash>)
      requires Inv(db) && call !in db.calls && t in db.handedOut && FreshPair(db.tokens, access, refresh)
      modifies this
      ensures Inv(db) && t in old(db).tokens
      ensures r.Some? <==> !old(db).tokens[t].revoked && !expired
      ensures r.Some? ==>
        && r.value == refresh && db.chain == old(db).chain + [refresh]
        && refresh in db.handedOut && access in db.handedAccess
        && !db.revoked && UsablePair(db.tokens, access, refresh)
        && t in db.tokens && db.tokens[t] == Token(Refresh, true, Some(refresh))
        && db.tokens - {t, access, refresh} == old(db).tokens - {t}
      ensures r.None? ==> db.revoked && db.chain == old(db).chain
      ensures r.None? ==> forall h :: h in db.handedOut + db.handedAccess ==> h in db.tokens && db.tokens[h].revoked
    {
      var stage := Presented(db.tokens[t], t, expired);
      Take(ReadToken(call, t, expired));
      if !stage.TokenRead? {
        RefuseToken(call, t, stage, now);
        return None;
      }
      RotateLive(call, t, access, refresh);
      return Some(refresh);
    }
  }
}
