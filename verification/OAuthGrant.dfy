/**
 One OAuth grant: its authorization code, its tokens, and the calls in flight on it
 (cloudflare/worker/src/oauth.ts:436-700; migrations 0008 and 0009).

 `authorize` inserts a grant and its one code together, and every token row names its grant, so no
 statement of these calls reads or writes two grants.  Every awaited D1 statement or batch is one
 step.  A call may stop for ever after any of its steps; it then just stays in `calls`.
 */
module OAuthGrant {
  import opened Common

  type Hash = nat
  type CallId = nat
  type Time = nat

  datatype Kind = Access | Refresh

  datatype Token = Token(kind: Kind, revoked: bool, rotatedTo: Option<Hash>)

  datatype Stage =
    | CodeRead                            // exchange: the code row was usable
    | CodeChecked                         // ... and the grant active
    | Issued(access: Hash, refresh: Hash) // ... and the batch claimed the code
    | TokenRead(token: Hash)              // rotation: the token row was live
    | TokenChecked(token: Hash)           // ... and the grant active
    | Rotated(token: Hash, access: Hash, next: Hash) // ... and the batch revoked the token
    | MustRevoke(token: Hash)             // the call goes on to revokeGrant
    | Refused(token: Hash)                // the call has ended in invalid_grant

  datatype Grant = Grant(
    codeUsed: Option<int>,                // used_at; a claim marker is negative
    revoked: bool,
    tokens: map<Hash, Token>,
    chain: seq<Hash>,                     // history: refresh tokens of the batches that won
    handedOut: set<Hash>,                 // history: refresh tokens that left in a response
    handedAccess: set<Hash>,              // ... and the access tokens that left with them
    calls: map<CallId, Stage>)

  datatype Step =
    | ReadCode(call: CallId)
    | CheckCode(call: CallId)
    | IssueBatch(call: CallId, access: Hash, refresh: Hash, now: Time)
    | ReadToken(call: CallId, token: Hash, expired: bool)
    | CheckToken(call: CallId)
    | RotateBatch(call: CallId, access: Hash, refresh: Hash)
    | FinishRevoke(call: CallId, now: Time)
    | RevokeGrant(now: Time)
    | Respond(call: CallId)

  const Authorized: Grant := Grant(None, false, map[], [], {}, {}, map[])

  predicate FreshPair(tokens: map<Hash, Token>, access: Hash, refresh: Hash) {
    access !in tokens && refresh !in tokens && access != refresh
  }

  function WithPair(tokens: map<Hash, Token>, access: Hash, refresh: Hash): map<Hash, Token> {
    tokens[access := Token(Access, false, None)][refresh := Token(Refresh, false, None)]
  }

  function AllRevoked(tokens: map<Hash, Token>): map<Hash, Token> {
    map t | t in tokens :: tokens[t].(revoked := true)
  }

  /** `revokeGrant`: one batch over the grant, its tokens and its code. */
  function Revoke(g: Grant, now: Time): Grant {
    g.(revoked := true, tokens := AllRevoked(g.tokens), codeUsed := if g.codeUsed.None? then Some(now) else g.codeUsed)
  }

  /** The batch of `issueTokenPair`: only the claim of an unused code lets the inserts through. */
  function Issue(g: Grant, call: CallId, access: Hash, refresh: Hash, now: Time): Grant {
    if g.codeUsed.Some? || !FreshPair(g.tokens, access, refresh) then g
    else g.(codeUsed := Some(now), tokens := WithPair(g.tokens, access, refresh),
            chain := [refresh], calls := g.calls[call := Issued(access, refresh)])
  }

  predicate LiveRefresh(tokens: map<Hash, Token>, t: Hash) {
    t in tokens && tokens[t].kind == Refresh && !tokens[t].revoked
  }

  /** The batch of `rotateRefreshToken`: the inserts are not conditional on the update. */
  function Rotate(g: Grant, call: CallId, t: Hash, access: Hash, refresh: Hash): Grant {
    if !FreshPair(g.tokens, access, refresh) then g
    else if LiveRefresh(g.tokens, t) then
      g.(tokens := WithPair(g.tokens[t := Token(Refresh, true, Some(refresh))], access, refresh),
         chain := g.chain + [refresh], calls := g.calls[call := Rotated(t, access, refresh)])
    else
      g.(tokens := WithPair(g.tokens, access, refresh), calls := g.calls[call := MustRevoke(t)])
  }

  /** What rotation's first read decides. */
  function Presented(row: Token, t: Hash, expired: bool): Stage {
    if row.revoked then (if row.rotatedTo.Some? then MustRevoke(t) else Refused(t))
    else if expired then MustRevoke(t)
    else TokenRead(t)
  }

  function HandedOut(g: Grant, access: Hash, refresh: Hash): Grant {
    g.(handedOut := g.handedOut + {refresh}, handedAccess := g.handedAccess + {access})
  }

  function Apply(g: Grant, step: Step): Grant {
    match step
    case ReadCode(c) => if c !in g.calls && g.codeUsed.None? then g.(calls := g.calls[c := CodeRead]) else g
    case CheckCode(c) =>
      if c in g.calls && g.calls[c] == CodeRead && !g.revoked then g.(calls := g.calls[c := CodeChecked]) else g
    case IssueBatch(c, access, refresh, now) =>
      if c in g.calls && g.calls[c] == CodeChecked then Issue(g, c, access, refresh, now) else g
    case ReadToken(c, t, expired) =>
      if c !in g.calls && t in g.handedOut && t in g.tokens
      then g.(calls := g.calls[c := Presented(g.tokens[t], t, expired)]) else g
    case CheckToken(c) =>
      if c in g.calls && g.calls[c].TokenRead? && !g.revoked
      then g.(calls := g.calls[c := TokenChecked(g.calls[c].token)]) else g
    case RotateBatch(c, access, refresh) =>
      if c in g.calls && g.calls[c].TokenChecked? then Rotate(g, c, g.calls[c].token, access, refresh) else g
    case FinishRevoke(c, now) =>
      if c in g.calls && g.calls[c].MustRevoke?
      then Revoke(g, now).(calls := g.calls[c := Refused(g.calls[c].token)]) else g
    case RevokeGrant(now) => Revoke(g, now)
    case Respond(c) =>
      if c in g.calls && g.calls[c].Issued? then HandedOut(g, g.calls[c].access, g.calls[c].refresh)
      else if c in g.calls && g.calls[c].Rotated? then HandedOut(g, g.calls[c].access, g.calls[c].next)
      else g
  }

  function Run(g: Grant, steps: seq<Step>): Grant
    decreases |steps|
  {
    if steps == [] then g else Run(Apply(g, steps[0]), steps[1..])
  }

  // ----- What every step keeps -----------------------------------------------------------------

  /** Each token of the chain but the last was rotated into the next; the last into none. */
  ghost predicate ChainOk(tokens: map<Hash, Token>, chain: seq<Hash>) {
    && (forall i :: 0 <= i < |chain| ==> chain[i] in tokens && tokens[chain[i]].kind == Refresh)
    && (forall i, j :: 0 <= i < j < |chain| ==> chain[i] != chain[j])
    && (forall i :: 0 <= i < |chain| - 1 ==>
          tokens[chain[i]].revoked && tokens[chain[i]].rotatedTo == Some(chain[i + 1]))
    && (chain != [] ==> tokens[chain[|chain| - 1]].rotatedTo == None)
  }

  /** Revocation reaches the code and the whole chain, and only it ends the chain's last token. */
  ghost predicate RevocationOk(g: Grant) {
    && (g.codeUsed.None? ==> g.chain == [])
    && (g.codeUsed.Some? ==> g.codeUsed.value >= 0)
    && (g.revoked ==> g.codeUsed.Some?)
    && (forall t :: t in g.chain && t in g.tokens ==>
          (g.revoked ==> g.tokens[t].revoked)
          && (g.tokens[t].revoked && g.tokens[t].rotatedTo.None? ==> g.revoked))
  }

  ghost predicate StageOk(tokens: map<Hash, Token>, chain: seq<Hash>, revoked: bool, stage: Stage) {
    match stage
    case CodeRead => true
    case CodeChecked => true
    case Issued(_, r) => chain != [] && chain[0] == r
    case TokenRead(t) => t in chain
    case TokenChecked(t) => t in chain
    case Rotated(t, _, r) => t in chain && r in chain && t in tokens && tokens[t].rotatedTo == Some(r)
    case MustRevoke(t) => t in chain
    case Refused(t) => revoked
  }

  ghost predicate CallsOk(g: Grant) {
    forall c :: c in g.calls ==> StageOk(g.tokens, g.chain, g.revoked, g.calls[c])
  }

  /** The response a call is about to give. */
  function Delivery(stage: Stage): Option<Hash> {
    match stage
    case Issued(_, r) => Some(r)
    case Rotated(_, _, r) => Some(r)
    case _ => None
  }

  /** No refresh token is the outcome of two calls. */
  ghost predicate DeliveriesOk(calls: map<CallId, Stage>) {
    forall c, d :: c in calls && d in calls && Delivery(calls[c]).Some? && Delivery(calls[c]) == Delivery(calls[d]) ==>
      c == d
  }

  ghost predicate HandedOk(chain: seq<Hash>, handedOut: set<Hash>) {
    forall t :: t in handedOut ==> t in chain
  }

  /** An access token's row: usable exactly while the grant stands. */
  ghost predicate AccessRow(tokens: map<Hash, Token>, revoked: bool, h: Hash) {
    h in tokens && tokens[h].kind == Access && (tokens[h].revoked <==> revoked)
  }

  /** Every access token that a call holds or that has left. */
  ghost predicate AccessOk(g: Grant) {
    && (forall c :: c in g.calls && g.calls[c].Issued? ==> AccessRow(g.tokens, g.revoked, g.calls[c].access))
    && (forall c :: c in g.calls && g.calls[c].Rotated? ==> AccessRow(g.tokens, g.revoked, g.calls[c].access))
    && (forall h :: h in g.handedAccess ==> AccessRow(g.tokens, g.revoked, h))
  }

  ghost predicate Inv(g: Grant) {
    && ChainOk(g.tokens, g.chain) && RevocationOk(g) && CallsOk(g) && DeliveriesOk(g.calls)
      && HandedOk(g.chain, g.handedOut)
    && AccessOk(g)
  }

  lemma RevokeKeeps(g: Grant, now: Time)
    requires Inv(g)
    ensures Inv(Revoke(g, now))
  {
  }

  lemma IssueKeeps(g: Grant, call: CallId, access: Hash, refresh: Hash, now: Time)
    requires Inv(g) && call in g.calls && g.calls[call] == CodeChecked
    ensures Inv(Issue(g, call, access, refresh, now))
  {
    if g.codeUsed.None? && FreshPair(g.tokens, access, refresh) {
      NothingIssued(g);
    }
  }

  /** While the code is unused no call has anything to show for it. */
  lemma NothingIssued(g: Grant)
    requires Inv(g) && g.codeUsed.None?
    ensures g.chain == [] && g.handedOut == {} && !g.revoked
    ensures forall c :: c in g.calls ==> g.calls[c] == CodeRead || g.calls[c] == CodeChecked
  {
    forall c | c in g.calls ensures g.calls[c] == CodeRead || g.calls[c] == CodeChecked {
      assert StageOk(g.tokens, g.chain, g.revoked, g.calls[c]);
    }
  }

  /** A live token of the chain is its last. */
  lemma LiveIsLast(tokens: map<Hash, Token>, chain: seq<Hash>, t: Hash)
    requires ChainOk(tokens, chain) && t in chain && !tokens[t].revoked
    ensures chain != [] && t == chain[|chain| - 1]
  {
  }

  lemma RotateKeepsChain(tokens: map<Hash, Token>, chain: seq<Hash>, t: Hash, access: Hash, refresh: Hash)
    requires ChainOk(tokens, chain) && t in chain && !tokens[t].revoked && FreshPair(tokens, access, refresh)
    ensures ChainOk(WithPair(tokens[t := Token(Refresh, true, Some(refresh))], access, refresh), chain + [refresh])
  {
  }

  lemma RotateKeeps(g: Grant, call: CallId, t: Hash, access: Hash, refresh: Hash)
    requires Inv(g) && call in g.calls && g.calls[call] == TokenChecked(t)
    ensures Inv(Rotate(g, call, t, access, refresh))
  {
    assert StageOk(g.tokens, g.chain, g.revoked, g.calls[call]);
    if FreshPair(g.tokens, access, refresh) {
      if LiveRefresh(g.tokens, t) {
        LiveIsLast(g.tokens, g.chain, t);
        WinnerKeeps(g, call, t, access, refresh);
      } else {
        LoserKeeps(g, call, t, access, refresh);
      }
    }
  }

  lemma WinnerKeeps(g: Grant, call: CallId, t: Hash, access: Hash, refresh: Hash)
    requires Inv(g) && call in g.calls && g.calls[call] == TokenChecked(t)
    requires FreshPair(g.tokens, access, refresh) && LiveRefresh(g.tokens, t) && g.chain != []
      && t == g.chain[|g.chain| - 1]
    ensures Inv(Rotate(g, call, t, access, refresh))
  {
    assert !g.revoked;
    RotateKeepsChain(g.tokens, g.chain, t, access, refresh);
    RotateKeepsCalls(g, call, t, access, refresh);
    RotateKeepsAccess(g, call, t, access, refresh);
    assert t in g.chain && !g.revoked;
  }

  /** The loser's inserts are rows outside the chain. */
  lemma LoserKeeps(g: Grant, call: CallId, t: Hash, access: Hash, refresh: Hash)
    requires Inv(g) && call in g.calls && g.calls[call] == TokenChecked(t) && t in g.chain
    requires FreshPair(g.tokens, access, refresh) && !LiveRefresh(g.tokens, t)
    ensures Inv(Rotate(g, call, t, access, refresh))
  {
    LoserKeepsCalls(g, call, t, access, refresh);
  }

  lemma LoserKeepsCalls(g: Grant, call: CallId, t: Hash, access: Hash, refresh: Hash)
    requires CallsOk(g) && DeliveriesOk(g.calls) && AccessOk(g) && t in g.chain
    requires FreshPair(g.tokens, access, refresh) && !LiveRefresh(g.tokens, t)
    ensures var g' := Rotate(g, call, t, access, refresh); CallsOk(g') && DeliveriesOk(g'.calls) && AccessOk(g')
  {
    var g' := Rotate(g, call, t, access, refresh);
    forall c | c in g'.calls ensures StageOk(g'.tokens, g'.chain, g'.revoked, g'.calls[c]) {
      assert c in g.calls ==> StageOk(g.tokens, g.chain, g.revoked, g.calls[c]);
    }
  }

  lemma RotateKeepsAccess(g: Grant, call: CallId, t: Hash, access: Hash, refresh: Hash)
    requires AccessOk(g) && FreshPair(g.tokens, access, refresh) && LiveRefresh(g.tokens, t) && !g.revoked
    ensures AccessOk(Rotate(g, call, t, access, refresh))
  {
  }

  /** A rotation leaves every other call's token, link and outcome as they were. */
  lemma RotateKeepsCalls(g: Grant, call: CallId, t: Hash, access: Hash, refresh: Hash)
    requires Inv(g) && call in g.calls && g.calls[call] == TokenChecked(t)
    requires FreshPair(g.tokens, access, refresh) && LiveRefresh(g.tokens, t) && g.chain != []
      && t == g.chain[|g.chain| - 1]
    ensures CallsOk(Rotate(g, call, t, access, refresh)) && DeliveriesOk(Rotate(g, call, t, access, refresh).calls)
  {
    var g' := Rotate(g, call, t, access, refresh);
    forall c | c in g'.calls ensures StageOk(g'.tokens, g'.chain, g'.revoked, g'.calls[c]) {
      if c != call { assert StageOk(g.tokens, g.chain, g.revoked, g.calls[c]); }
    }
    forall c | c in g.calls && Delivery(g.calls[c]).Some? ensures Delivery(g.calls[c]).value in g.tokens {
      assert StageOk(g.tokens, g.chain, g.revoked, g.calls[c]);
    }
  }

  /** A read only moves its own call on, to a stage with nothing to deliver. */
  lemma StageKeeps(g: Grant, c: CallId, stage: Stage)
    requires Inv(g) && StageOk(g.tokens, g.chain, g.revoked, stage) && Delivery(stage).None?
    ensures Inv(g.(calls := g.calls[c := stage]))
  {
  }

  lemma ReadKeeps(g: Grant, c: CallId, t: Hash, expired: bool)
    requires Inv(g) && t in g.handedOut && t in g.tokens
    ensures Inv(g.(calls := g.calls[c := Presented(g.tokens[t], t, expired)]))
  {
    StageKeeps(g, c, Presented(g.tokens[t], t, expired));
  }

  lemma ApplyKeeps(g: Grant, step: Step)
    requires Inv(g)
    ensures Inv(Apply(g, step))
  {
    match step
    case ReadCode(c) => StageKeeps(g, c, CodeRead);
    case CheckCode(c) => StageKeeps(g, c, CodeChecked);
    case IssueBatch(c, access, refresh, now) =>
      if c in g.calls && g.calls[c] == CodeChecked { IssueKeeps(g, c, access, refresh, now); }
    case ReadToken(c, t, expired) =>
      if t in g.handedOut && t in g.tokens { ReadKeeps(g, c, t, expired); }
    case CheckToken(c) =>
      if c in g.calls && g.calls[c].TokenRead? { StageKeeps(g, c, TokenChecked(g.calls[c].token)); }
    case RotateBatch(c, access, refresh) =>
      if c in g.calls && g.calls[c].TokenChecked? { RotateKeeps(g, c, g.calls[c].token, access, refresh); }
    case FinishRevoke(c, now) =>
      RevokeKeeps(g, now);
      if c in g.calls && g.calls[c].MustRevoke? { StageKeeps(Revoke(g, now), c, Refused(g.calls[c].token)); }
    case RevokeGrant(now) => RevokeKeeps(g, now);
    case Respond(c) => RespondKeeps(g, c);
  }

  lemma RespondKeeps(g: Grant, c: CallId)
    requires Inv(g)
    ensures Inv(Apply(g, Respond(c)))
  {
    if c in g.calls { assert StageOk(g.tokens, g.chain, g.revoked, g.calls[c]); }
  }

  lemma {:induction false} RunKeeps(g: Grant, steps: seq<Step>)
    requires Inv(g)
    ensures Inv(Run(g, steps))
    decreases |steps|
  {
    if steps != [] {
      ApplyKeeps(g, steps[0]);
      RunKeeps(Apply(g, steps[0]), steps[1..]);
    }
  }

  // ----- What rotation promises ----------------------------------------------------------------

  /**
   However the calls race: the refresh tokens handed out belong to one chain, each rotated into the
   next; no two calls gave out the same one; and while the grant stands, and only then, the chain's
   last refresh token and every access token handed out are unrevoked.
   */
  lemma OneChain(steps: seq<Step>)
    ensures var g := Run(Authorized, steps);
      && (forall t :: t in g.handedOut ==>
          t in g.chain && t in g.tokens && (!g.tokens[t].revoked ==> t == g.chain[|g.chain| - 1]))
      && (forall i :: 0 <= i < |g.chain| - 1 ==>
            g.chain[i] in g.tokens && g.tokens[g.chain[i]].revoked
              && g.tokens[g.chain[i]].rotatedTo == Some(g.chain[i + 1]))
      && (forall i, j :: 0 <= i < j < |g.chain| ==> g.chain[i] != g.chain[j])
      && DeliveriesOk(g.calls)
      && (g.chain != [] ==>
            var last := g.chain[|g.chain| - 1];
            last in g.tokens && g.tokens[last].kind == Refresh && (g.tokens[last].revoked <==> g.revoked))
      && (forall h :: h in g.handedAccess ==>
            h in g.tokens && g.tokens[h].kind == Access && h !in g.chain && (g.tokens[h].revoked <==> g.revoked))
  {
    RunKeeps(Authorized, steps);
  }

  /** A revoked grant: nothing is issued or rotated any more, whatever calls are past their reads. */
  lemma EndedKept(g: Grant, step: Step)
    requires Inv(g) && g.revoked
    ensures Apply(g, step).revoked && Apply(g, step).chain == g.chain
  {
  }

  /**
   From revocation on, the chain stands still, and every token handed out, then or later, access and
   refresh alike, is revoked.
   */
  lemma {:induction false} RevocationIsFinal(g: Grant, steps: seq<Step>)
    requires Inv(g) && g.revoked
    ensures var g' := Run(g, steps);
      && g'.revoked && g'.chain == g.chain
      && forall t :: t in g'.handedOut + g'.handedAccess ==> t in g'.tokens && g'.tokens[t].revoked
    decreases |steps|
  {
    if steps != [] {
      ApplyKeeps(g, steps[0]);
      EndedKept(g, steps[0]);
      RevocationIsFinal(Apply(g, steps[0]), steps[1..]);
    }
  }

  /** The stages of a call that has presented this token and rotated nothing. */
  predicate Presenting(stage: Stage, t: Hash) {
    stage == TokenRead(t) || stage == TokenChecked(t) || stage == MustRevoke(t) || stage == Refused(t)
  }

  ghost predicate RotatedAway(tokens: map<Hash, Token>, t: Hash) {
    t in tokens && tokens[t].revoked && tokens[t].rotatedTo.Some?
  }

  lemma ReuseStep(g: Grant, step: Step, c: CallId, t: Hash)
    requires Inv(g) && c in g.calls && Presenting(g.calls[c], t) && RotatedAway(g.tokens, t)
    ensures var g' := Apply(g, step); c in g'.calls && Presenting(g'.calls[c], t) && RotatedAway(g'.tokens, t)
  {
  }

  /**
   Reuse: a call presenting a token that another call has rotated, at its read or behind its back,
   never gets tokens; if it ends, it ends refused and the grant is revoked.
   */
  lemma {:induction false} ReuseRevokes(g: Grant, steps: seq<Step>, c: CallId, t: Hash)
    requires Inv(g) && c in g.calls && Presenting(g.calls[c], t) && RotatedAway(g.tokens, t)
    ensures var g' := Run(g, steps);
      c in g'.calls && Presenting(g'.calls[c], t) && (g'.calls[c] == Refused(t) ==> g'.revoked)
    decreases |steps|
  {
    if steps == [] {
      assert StageOk(g.tokens, g.chain, g.revoked, g.calls[c]);
    } else {
      ApplyKeeps(g, steps[0]);
      ReuseStep(g, steps[0], c, t);
      ReuseRevokes(Apply(g, steps[0]), steps[1..], c, t);
    }
  }

  /** Presenting a rotated token and running the call to its end, alone, always revokes. */
  lemma ReuseAlone(g: Grant, c: CallId, t: Hash, expired: bool, now: Time)
    requires Inv(g) && c !in g.calls && t in g.handedOut && RotatedAway(g.tokens, t)
    ensures var g' := Apply(Apply(g, ReadToken(c, t, expired)), FinishRevoke(c, now));
      g'.revoked && g'.calls[c] == Refused(t) && forall u :: u in g'.tokens ==> g'.tokens[u].revoked
  {
  }

  // ----- Tokens that nobody has ------------------------------------------------------------------

  /** A usable refresh row outside the chain. */
  ghost predicate Orphan(g: Grant, h: Hash) {
    LiveRefresh(g.tokens, h) && h !in g.chain
  }

  /** The call has lost its race, and its batch inserts its pair all the same. */
  predicate Loses(g: Grant, step: Step) {
    && step.RotateBatch? && step.call in g.calls && g.calls[step.call].TokenChecked?
    && FreshPair(g.tokens, step.access, step.refresh) && !LiveRefresh(g.tokens, g.calls[step.call].token)
  }

  /** Exactly the rotations that lose make such a row, and until the call has revoked the grant it is usable. */
  lemma OrphansAreLosers(g: Grant, step: Step)
    requires Inv(g)
    ensures (exists h :: Orphan(Apply(g, step), h) && !Orphan(g, h)) <==> Loses(g, step)
    ensures Loses(g, step) ==> Orphan(Apply(g, step), step.refresh)
  {
    if Loses(g, step) {
      assert StageOk(g.tokens, g.chain, g.revoked, g.calls[step.call]);
      assert Orphan(Apply(g, step), step.refresh) && !Orphan(g, step.refresh);
    } else {
      NoOrphan(g, step);
    }
  }

  lemma NoOrphan(g: Grant, step: Step)
    requires Inv(g) && !Loses(g, step)
    ensures forall h :: Orphan(Apply(g, step), h) ==> Orphan(g, h)
  {
  }

  /** A revocation of the grant ends every such row there is. */
  lemma RevocationEndsOrphans(g: Grant, now: Time)
    ensures forall h :: !Orphan(Revoke(g, now), h)
  {
  }

  /** Nobody has its token, then or later. */
  lemma OrphansStayUnknown(g: Grant, h: Hash, steps: seq<Step>)
    requires Inv(g) && h in g.tokens && h !in g.chain
    ensures var g' := Run(g, steps); h in g'.tokens && h !in g'.chain && h !in g'.handedOut
    decreases |steps|
  {
    if steps != [] {
      ApplyKeeps(g, steps[0]);
      RowsStayOut(g, steps[0], h);
      OrphansStayUnknown(Apply(g, steps[0]), h, steps[1..]);
    }
  }

  lemma RowsStayOut(g: Grant, step: Step, h: Hash)
    requires h in g.tokens && h !in g.chain
    ensures h in Apply(g, step).tokens && h !in Apply(g, step).chain
  {
  }

  lemma {:induction false} RunOne(g: Grant, steps: seq<Step>, step: Step)
    ensures Run(g, steps + [step]) == Apply(Run(g, steps), step)
    decreases |steps|
  {
    if steps == [] {
      assert Run(Apply(g, step), []) == Apply(g, step);
    } else {
      assert (steps + [step])[1..] == steps[1..] + [step];
      RunOne(Apply(g, steps[0]), steps[1..], step);
    }
  }

  /** The code is exchanged, and two calls read the refresh token while it is live. */
  const BothRead: seq<Step> :=
    [ReadCode(0), CheckCode(0), IssueBatch(0, 1, 2, 0), Respond(0), ReadToken(1, 2, false), ReadToken(2, 2, false)]

  lemma BothHaveRead()
    ensures Run(Authorized, BothRead)
            == Grant(Some(0), false, WithPair(map[], 1, 2), [2], {2}, {1},
                map[0 := Issued(1, 2), 1 := TokenRead(2), 2 := TokenRead(2)])
  {
    var g := Apply(Apply(Authorized, ReadCode(0)), CheckCode(0));
    assert Run(Authorized, BothRead) == Run(g, BothRead[2..]);
    var issued := Apply(Apply(g, IssueBatch(0, 1, 2, 0)), Respond(0));
    assert Run(g, BothRead[2..]) == Run(issued, BothRead[2..][2..]);
  }

  /** Both pass their check, and the first rotates it. */
  const FirstRotated: seq<Step> := BothRead + [CheckToken(1)] + [CheckToken(2)] + [RotateBatch(1, 3, 4)]

  lemma BothHaveChecked()
    ensures Run(Authorized, BothRead + [CheckToken(1)] + [CheckToken(2)])
            == Grant(Some(0), false, WithPair(map[], 1, 2), [2], {2}, {1},
                map[0 := Issued(1, 2), 1 := TokenChecked(2), 2 := TokenChecked(2)])
  {
    BothHaveRead();
    RunOne(Authorized, BothRead, CheckToken(1));
    RunOne(Authorized, BothRead + [CheckToken(1)], CheckToken(2));
  }

  lemma SecondLoses()
    ensures Loses(Run(Authorized, FirstRotated), RotateBatch(2, 5, 6))
  {
    BothHaveChecked();
    RunOne(Authorized, BothRead + [CheckToken(1)] + [CheckToken(2)], RotateBatch(1, 3, 4));
  }

  /** The second loses, and stops before it revokes the grant. */
  lemma OrphanRun() returns (steps: seq<Step>)
    ensures Orphan(Run(Authorized, steps), 6)
  {
    SecondLoses();
    RunKeeps(Authorized, FirstRotated);
    OrphansAreLosers(Run(Authorized, FirstRotated), RotateBatch(2, 5, 6));
    RunOne(Authorized, FirstRotated, RotateBatch(2, 5, 6));
    steps := FirstRotated + [RotateBatch(2, 5, 6)];
  }

  // ----- All grants ----------------------------------------------------------------------------

  /** The tables as a whole; a step names the grant whose rows it touches. */
  datatype ServerStep = Authorize(grant: nat) | On(grant: nat, step: Step)

  function ApplyServer(server: map<nat, Grant>, step: ServerStep): map<nat, Grant> {
    match step
    case Authorize(id) => if id in server then server else server[id := Authorized]
    case On(id, s) => if id in server then server[id := Apply(server[id], s)] else server
  }

  function RunServer(server: map<nat, Grant>, steps: seq<ServerStep>): map<nat, Grant>
    decreases |steps|
  {
    if steps == [] then server else RunServer(ApplyServer(server, steps[0]), steps[1..])
  }

  /** Every grant of every run of the server keeps what one grant's run keeps. */
  lemma {:induction false} EveryGrant(server: map<nat, Grant>, steps: seq<ServerStep>)
    requires forall id :: id in server ==> Inv(server[id])
    ensures forall id :: id in RunServer(server, steps) ==> Inv(RunServer(server, steps)[id])
    decreases |steps|
  {
    if steps != [] {
      var step := steps[0];
      if step.On? && step.grant in server { ApplyKeeps(server[step.grant], step.step); }
      EveryGrant(ApplyServer(server, step), steps[1..]);
    }
  }
}
