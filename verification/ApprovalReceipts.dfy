/** One-time approval receipts: issued with a token, then consumed, revoked, or given a new token. */
module ApprovalReceipts {
  import opened Common

  const NIL_UUID := "00000000-0000-0000-0000-000000000000"

  const ALLOW := "allow"
  const USER_APPROVAL := "require_user_approval"
  const ADMIN_APPROVAL := "require_admin_approval"
  const DENY := "deny"

  /** A decision as it is stored: one of the four, or nothing. */
  function NormalDecision(value: string): string {
    var d := Trim(value);
    if d == ALLOW || d == USER_APPROVAL || d == ADMIN_APPROVAL || d == DENY then d else ""
  }

  /** The digest a token is stored as; different tokens have different digests. */
  datatype TokenHash = TokenHash(token: string)

  datatype ReceiptStatus = Pending | Consumed | Revoked

  datatype Receipt = Receipt(
    decisionId: nat, actor: string, subjectType: string, subjectId: string, capability: string, decision: string,
    tokenHash: TokenHash, status: ReceiptStatus, expires: int, consumedAt: Option<int>, consumedBy: string)

  type Receipts = map<nat, Receipt>

  datatype Constraints = Constraints(
    actor: Option<string>, subjectType: string, subjectId: string, capability: string)

  const MINUTE := 60_000_000_000
  const HOUR := 60 * MINUTE

  /** Whether a receipt is for what the caller named; what the caller left blank is not asked for. */
  predicate Meets(r: Receipt, c: Constraints) {
    && (c.actor.Some? && c.actor.value != NIL_UUID ==> r.actor == c.actor.value)
    && (c.subjectType != "" ==> r.subjectType == c.subjectType)
    && (c.subjectId != "" ==> r.subjectId == c.subjectId)
    && (c.capability != "" ==> r.capability == c.capability)
  }

  predicate Consumable(r: Receipt, now: int, c: Constraints) {
    r.status.Pending? && r.expires > now && Meets(r, c)
  }

  function Used(r: Receipt, consumer: string, now: int): Receipt {
    r.(status := Consumed, consumedAt := Some(now), consumedBy := consumer)
  }

  function Lifetime(ttl: int): (l: int)
    ensures 0 < l <= HOUR
  {
    if ttl <= 0 || ttl > HOUR then 15 * MINUTE else ttl
  }

  /** The unique index on the token digest. */
  predicate Unique(receipts: Receipts) {
    forall i, j | i in receipts && j in receipts && receipts[i].tokenHash == receipts[j].tokenHash :: i == j
  }

  ghost function Holder(receipts: Receipts, h: TokenHash): Option<nat> {
    if id :| id in receipts && receipts[id].tokenHash == h then Some(id) else None
  }

  /** A non-blank token of some receipt that can be consumed now for what the caller named. */
  ghost predicate Accepted(receipts: Receipts, token: string, now: int, c: Constraints) {
    var id := Holder(receipts, TokenHash(token));
    !Blank(token) && id.Some? && Consumable(receipts[id.value], now, c)
  }

  ghost function AfterConsume(receipts: Receipts, token: string, consumer: string, now: int, c: Constraints): Receipts {
    if Accepted(receipts, token, now, c)
    then
      var id := Holder(receipts, TokenHash(token)).value;
      receipts[id := Used(receipts[id], consumer, now)]
    else receipts
  }

  predicate Reissuable(receipts: Receipts, id: nat, now: int) {
    id in receipts && receipts[id].status.Pending? && receipts[id].expires > now
  }

  function AfterRevoke(receipts: Receipts, id: nat): Receipts {
    if id in receipts && receipts[id].status.Pending?
    then receipts[id := receipts[id].(status := Revoked)]
    else receipts
  }

  function AfterReissue(receipts: Receipts, id: nat, token: string, ttl: int, now: int): Receipts {
    if Reissuable(receipts, id, now)
    then receipts[id := receipts[id].(tokenHash := TokenHash(token), expires := now + Lifetime(ttl))]
    else receipts
  }

  /** What a receipt is asked for with; a decision id of 0 is missing. */
  datatype Order = Order(
    decisionId: nat, actor: string, subjectType: string, subjectId: string, capability: string, decision: string,
    expires: Option<int>)

  function Issued(o: Order, token: string, now: int): Receipt {
    Receipt(o.decisionId, o.actor, Trim(o.subjectType), Trim(o.subjectId), Trim(o.capability),
            NormalDecision(o.decision), TokenHash(token), Pending,
            if o.expires.Some? then o.expires.value else now + 15 * MINUTE, None, "")
  }

  /** A token is accepted exactly if it is not blank and some receipt carries its digest that is pending, has not expired,
      and is for the actor, subject and capability wherever the caller names them. */
  lemma AcceptedIff(receipts: Receipts, token: string, now: int, c: Constraints)
    requires Unique(receipts)
    ensures Accepted(receipts, token, now, c) <==>
      !Blank(token)
      && exists id :: id in receipts
           && var r := receipts[id];
              && r.tokenHash == TokenHash(token) && r.status == Pending && r.expires > now
              && c.actor in {None, Some(NIL_UUID), Some(r.actor)} && c.subjectType in {"", r.subjectType}
              && c.subjectId in {"", r.subjectId} && c.capability in {"", r.capability}
  {
  }

  /** What a new receipt records, and what it can be consumed for and until when. */
  lemma IssuedMeaning(o: Order, token: string, now: int, at: int, c: Constraints)
    ensures var r := Issued(o, token, now);
            && r.tokenHash == TokenHash(token) && r.decisionId == o.decisionId
            && (Trim(o.decision) in {"allow", "require_user_approval", "require_admin_approval", "deny"} ==>
                  r.decision == Trim(o.decision))
            && (r.decision in {"", Trim(o.decision)})
            && (r.decision != "" ==>
                  r.decision in {"allow", "require_user_approval", "require_admin_approval", "deny"})
            && (Consumable(r, at, c)
                <==> && at < (if o.expires.Some? then o.expires.value else now + 900_000_000_000)
                     && c.actor in {None, Some(NIL_UUID), Some(o.actor)} && c.subjectType in {"", Trim(o.subjectType)}
                     && c.subjectId in {"", Trim(o.subjectId)} && c.capability in {"", Trim(o.capability)})
  {
  }

  class ReceiptTable {
    var receipts: Receipts

    constructor ()
      ensures receipts == map[]
    {
      receipts := map[];
    }

    method FindByTokenHash(h: TokenHash) returns (found: Option<nat>)
      requires Unique(receipts)
      ensures found == Holder(receipts, h)
    {
      var left := receipts.Keys;
      while left != {}
        invariant left <= receipts.Keys
        invariant forall id | id in receipts && id !in left :: receipts[id].tokenHash != h
        decreases left
      {
        var id :| id in left;
        if receipts[id].tokenHash == h {
          return Some(id);
        }
        left := left - {id};
      }
      found := None;
    }

    /** Issues a receipt under a fresh id with a fresh token. Without an expiry it is good for 15 minutes. */
    method CreateApprovalReceipt(order: Order, id: nat, token: string, now: int) returns (created: bool)
      requires id !in receipts
      requires forall i | i in receipts :: receipts[i].tokenHash != TokenHash(token)
      modifies this
      ensures created <==> order.decisionId != 0 && order.actor != NIL_UUID
                           && !Blank(order.subjectType) && !Blank(order.capability)
      ensures receipts == if created then old(receipts)[id := Issued(order, token, now)] else old(receipts)
    {
      if order.decisionId == 0 || order.actor == NIL_UUID
         || Trim(order.subjectType) == "" || Trim(order.capability) == ""
      {
        return false;
      }
      var expires := if order.expires.Some? then order.expires.value else now + 15 * MINUTE;
      receipts := receipts[id := Receipt(
        order.decisionId, order.actor, Trim(order.subjectType), Trim(order.subjectId), Trim(order.capability),
        NormalDecision(order.decision), TokenHash(token), Pending, expires, None, "")];
      created := true;
    }

    method ConsumeForOperation(token: string, consumer: string, now: int, c: Constraints)
      returns (consumed: Option<nat>)
      requires Unique(receipts)
      modifies this
      ensures receipts == AfterConsume(old(receipts), token, consumer, now, c)
      ensures consumed == if Accepted(old(receipts), token, now, c)
                          then Holder(old(receipts), TokenHash(token)) else None
      ensures consumed.Some? <==>
        !Blank(token)
        && exists id :: id in old(receipts)
             && var r := old(receipts)[id];
                && r.tokenHash == TokenHash(token) && r.status == Pending && r.expires > now
                && c.actor in {None, Some(NIL_UUID), Some(r.actor)} && c.subjectType in {"", r.subjectType}
                && c.subjectId in {"", r.subjectId} && c.capability in {"", r.capability}
      ensures consumed.Some? ==>
        && consumed.value in old(receipts) && old(receipts)[consumed.value].tokenHash == TokenHash(token)
        && receipts == old(receipts)[consumed.value := old(receipts)[consumed.value].(
                         status := Consumed, consumedAt := Some(now), consumedBy := consumer)]
    {
      AcceptedIff(receipts, token, now, c);
      if Blank(token) {
        return None;
      }
      var id := FindByTokenHash(TokenHash(token));
      if id.None? {
        return None;
      }
      var r := receipts[id.value];
      if !r.status.Pending? {
        return None;
      }
      if r.expires <= now {
        return None;
      }
      if c.actor.Some? && c.actor.value != NIL_UUID && r.actor != c.actor.value {
        return None;
      }
      if c.subjectType != "" && r.subjectType != c.subjectType {
        return None;
      }
      if c.subjectId != "" && r.subjectId != c.subjectId {
        return None;
      }
      if c.capability != "" && r.capability != c.capability {
        return None;
      }
      receipts := receipts[id.value := r.(status := Consumed, consumedAt := Some(now), consumedBy := consumer)];
      consumed := id;
    }

    method Revoke(id: nat) returns (ok: bool)
      modifies this
      ensures receipts == AfterRevoke(old(receipts), id)
      ensures ok == (id in old(receipts) && old(receipts)[id].status.Pending?)
    {
      if id !in receipts || !receipts[id].status.Pending? {
        return false;
      }
      receipts := receipts[id := receipts[id].(status := Revoked)];
      ok := true;
    }

    method ReissueToken(id: nat, token: string, ttl: int, now: int) returns (ok: bool)
      modifies this
      ensures receipts == AfterReissue(old(receipts), id, token, ttl, now)
      ensures ok <==> id in old(receipts) && old(receipts)[id].status == Pending && old(receipts)[id].expires > now
      ensures ok ==>
        receipts == old(receipts)[id := old(receipts)[id].(
          tokenHash := TokenHash(token),
          expires := now + if 0 < ttl <= 3_600_000_000_000 then ttl else 900_000_000_000)]
    {
      var life := ttl;
      if ttl <= 0 || ttl > HOUR {
        life := 15 * MINUTE;
      }
      if id !in receipts || !receipts[id].status.Pending? || receipts[id].expires <= now {
        return false;
      }
      receipts := receipts[id := receipts[id].(tokenHash := TokenHash(token), expires := now + life)];
      ok := true;
    }
  }

  // ---------- runs ----------

  datatype Step =
    | Create(id: nat, r: Receipt)
    | Consume(token: string, consumer: string, now: int, c: Constraints)
    | Revoke(id: nat)
    | Reissue(id: nat, token: string, ttl: int, now: int)

  /** `issuedTo` says which receipt each token was ever issued for, `latest` the last token issued for a receipt,
      `log` the tokens consumed so far. */
  datatype State = State(receipts: Receipts, issuedTo: map<string, nat>, latest: map<nat, string>, log: seq<string>)

  const EMPTY := State(map[], map[], map[], [])

  /** New receipts are pending, and tokens are drawn at random: never blank, never one seen before. */
  predicate Enabled(s: State, step: Step) {
    match step
    case Create(id, r) =>
      id !in s.receipts && r.status.Pending? && !Blank(r.tokenHash.token) && r.tokenHash.token !in s.issuedTo
    case Reissue(_, token, _, _) => !Blank(token) && token !in s.issuedTo
    case _ => true
  }

  ghost function Next(s: State, step: Step): State {
    match step
    case Create(id, r) =>
      State(s.receipts[id := r], s.issuedTo[r.tokenHash.token := id], s.latest[id := r.tokenHash.token], s.log)
    case Consume(token, consumer, now, c) =>
      s.(receipts := AfterConsume(s.receipts, token, consumer, now, c),
         log := if Accepted(s.receipts, token, now, c) then s.log + [token] else s.log)
    case Revoke(id) => s.(receipts := AfterRevoke(s.receipts, id))
    case Reissue(id, token, ttl, now) =>
      if Reissuable(s.receipts, id, now)
      then State(AfterReissue(s.receipts, id, token, ttl, now), s.issuedTo[token := id], s.latest[id := token], s.log)
      else s
  }

  predicate TokensOk(s: State) {
    forall id | id in s.receipts ::
      && id in s.latest && s.receipts[id].tokenHash == TokenHash(s.latest[id])
      && s.latest[id] in s.issuedTo && s.issuedTo[s.latest[id]] == id
  }

  /** A token that can no longer be consumed: its receipt has another token by now, or is settled. */
  predicate Dead(s: State, token: string) {
    && token in s.issuedTo && s.issuedTo[token] in s.receipts
    && (s.receipts[s.issuedTo[token]].tokenHash != TokenHash(token)
        || !s.receipts[s.issuedTo[token]].status.Pending?)
  }

  predicate LogOk(s: State) {
    && (forall token | token in s.log :: Dead(s, token))
    && forall i | 0 <= i < |s.log| :: s.log[i] !in s.log[..i]
  }

  predicate Inv(s: State) {
    && TokensOk(s) && LogOk(s)
    && forall token | token in s.issuedTo :: s.issuedTo[token] in s.receipts
  }

  lemma HolderIsIssuedTo(s: State, token: string)
    requires TokensOk(s) && Holder(s.receipts, TokenHash(token)).Some?
    ensures token in s.issuedTo && Holder(s.receipts, TokenHash(token)) == Some(s.issuedTo[token])
    ensures s.issuedTo[token] in s.receipts && s.latest[s.issuedTo[token]] == token
  {
  }

  /** What the table's methods ask of it holds in every reachable state. */
  lemma TokensAreUnique(s: State)
    requires TokensOk(s)
    ensures Unique(s.receipts)
  {
  }

  /** A consumption succeeds exactly for the latest token of a pending, unexpired receipt that is for what the
      caller named. */
  lemma ConsumedIff(s: State, token: string, now: int, c: Constraints)
    requires Inv(s)
    ensures Accepted(s.receipts, token, now, c) <==>
      !Blank(token)
      && exists id :: id in s.receipts && s.latest[id] == token
           && var r := s.receipts[id];
              && r.status == Pending && r.expires > now
              && c.actor in {None, Some(NIL_UUID), Some(r.actor)} && c.subjectType in {"", r.subjectType}
              && c.subjectId in {"", r.subjectId} && c.capability in {"", r.capability}
  {
    TokensAreUnique(s);
    AcceptedIff(s.receipts, token, now, c);
    assert forall id | id in s.receipts :: s.receipts[id].tokenHash == TokenHash(token) <==> s.latest[id] == token;
  }

  lemma ConsumeKeeps(s: State, step: Step)
    requires step.Consume? && Accepted(s.receipts, step.token, step.now, step.c) && Inv(s)
    ensures Inv(Next(s, step)) && Dead(Next(s, step), step.token) && !Dead(s, step.token)
  {
    var s' := Next(s, step);
    HolderIsIssuedTo(s, step.token);
    assert step.token !in s.log;
    forall i | 0 <= i < |s'.log|
      ensures s'.log[i] !in s'.log[..i]
    {
      assert s'.log[..i] == s.log[..i];
    }
    forall token | token in s'.log
      ensures Dead(s', token)
    {
      if token != step.token {
        assert token in s.log && Dead(s, token);
      }
    }
  }

  lemma StepKeepsInv(s: State, step: Step)
    requires Enabled(s, step) && Inv(s)
    ensures Inv(Next(s, step))
  {
    if step.Consume? && Accepted(s.receipts, step.token, step.now, step.c) {
      ConsumeKeeps(s, step);
    }
  }

  /** A settled receipt never changes again, whether it was consumed or revoked. */
  lemma SettledIsFinal(s: State, step: Step, id: nat)
    requires Enabled(s, step) && id in s.receipts && !s.receipts[id].status.Pending?
    ensures id in Next(s, step).receipts && Next(s, step).receipts[id] == s.receipts[id]
  {
  }

  lemma DeadIsRefused(s: State, token: string, now: int, c: Constraints)
    requires Inv(s) && Dead(s, token)
    ensures !Accepted(s.receipts, token, now, c)
  {
    if Holder(s.receipts, TokenHash(token)).Some? {
      HolderIsIssuedTo(s, token);
    }
  }

  lemma DeadStaysDead(s: State, step: Step, token: string)
    requires Enabled(s, step) && Inv(s) && Dead(s, token)
    ensures Dead(Next(s, step), token)
  {
    if step.Consume? && Accepted(s.receipts, step.token, step.now, step.c) {
      HolderIsIssuedTo(s, step.token);
    }
  }

  ghost predicate Schedule(s: State, steps: seq<Step>)
    decreases |steps|
  {
    steps != [] ==> Enabled(s, steps[0]) && Schedule(Next(s, steps[0]), steps[1..])
  }

  ghost function After(s: State, steps: seq<Step>): State
    decreases |steps|
  {
    if steps == [] then s else After(Next(s, steps[0]), steps[1..])
  }

  lemma {:induction false} RunsKeepInv(s: State, steps: seq<Step>)
    requires Inv(s) && Schedule(s, steps)
    ensures Inv(After(s, steps))
    decreases |steps|
  {
    if steps != [] {
      StepKeepsInv(s, steps[0]);
      RunsKeepInv(Next(s, steps[0]), steps[1..]);
    }
  }

  /** Over every run each token is consumed at most once. */
  lemma ConsumedAtMostOnce(steps: seq<Step>)
    requires Schedule(EMPTY, steps)
    ensures var log := After(EMPTY, steps).log; forall i, j | 0 <= i < j < |log| :: log[i] != log[j]
  {
    RunsKeepInv(EMPTY, steps);
    var log := After(EMPTY, steps).log;
    forall i, j | 0 <= i < j < |log|
      ensures log[i] != log[j]
    {
      assert log[j] !in log[..j] && log[i] == log[..j][i];
    }
  }

  lemma {:induction false} DeadForever(s: State, steps: seq<Step>, token: string)
    requires Inv(s) && Schedule(s, steps) && Dead(s, token)
    ensures Inv(After(s, steps)) && Dead(After(s, steps), token)
    decreases |steps|
  {
    if steps != [] {
      StepKeepsInv(s, steps[0]);
      DeadStaysDead(s, steps[0], token);
      DeadForever(Next(s, steps[0]), steps[1..], token);
    }
  }

  /** Once a receipt has a new token, the old one is refused whatever happens afterwards. */
  lemma ReissueKillsOldToken(s: State, id: nat, token: string, ttl: int, at: int, steps: seq<Step>,
                             now: int, c: Constraints)
    requires Inv(s) && Enabled(s, Reissue(id, token, ttl, at)) && Reissuable(s.receipts, id, at)
    requires Schedule(Next(s, Reissue(id, token, ttl, at)), steps)
    ensures !Accepted(After(Next(s, Reissue(id, token, ttl, at)), steps).receipts, s.latest[id], now, c)
  {
    var s' := Next(s, Reissue(id, token, ttl, at));
    StepKeepsInv(s, Reissue(id, token, ttl, at));
    DeadForever(s', steps, s.latest[id]);
    DeadIsRefused(After(s', steps), s.latest[id], now, c);
  }

  /** A revoked receipt's token is refused whatever happens afterwards. */
  lemma RevocationIsFinal(s: State, id: nat, steps: seq<Step>, now: int, c: Constraints)
    requires Inv(s) && id in s.receipts && s.receipts[id].status.Pending?
    requires Schedule(Next(s, Revoke(id)), steps)
    ensures var end := After(Next(s, Revoke(id)), steps);
            && id in end.receipts && end.receipts[id].status.Revoked?
            && !Accepted(end.receipts, s.latest[id], now, c)
  {
    var s' := Next(s, Revoke(id));
    StepKeepsInv(s, Revoke(id));
    DeadForever(s', steps, s.latest[id]);
    DeadIsRefused(After(s', steps), s.latest[id], now, c);
    SettledStays(s', steps, id);
  }

  lemma {:induction false} SettledStays(s: State, steps: seq<Step>, id: nat)
    requires Schedule(s, steps) && id in s.receipts && !s.receipts[id].status.Pending?
    ensures id in After(s, steps).receipts && After(s, steps).receipts[id] == s.receipts[id]
    decreases |steps|
  {
    if steps != [] {
      SettledIsFinal(s, steps[0], id);
      SettledStays(Next(s, steps[0]), steps[1..], id);
    }
  }
}
