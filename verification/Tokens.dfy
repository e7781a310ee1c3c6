/** Single-use capability tokens. */
module Tokens {

  import opened Wrappers

  datatype Token = Token(secret: string, toolRef: string, operation: string, runId: string)

  datatype Record = Record(toolRef: string, operation: string, runId: string, expiresAt: real, used: bool)

  type Records = map<string, Record>

  datatype TokenError = Unknown | AlreadyUsed | ScopeMismatch | Expired

  /** Why a token is refused, if it is. The checks come in this order. */
  function Refusal(m: Records, token: Token, toolRef: string, runId: string, operation: string, now: real): Option<TokenError> {
    if token.secret !in m then Some(Unknown)
    else
      var rec := m[token.secret];
      if rec.used then Some(AlreadyUsed)
      else if rec.toolRef != toolRef || rec.runId != runId || rec.operation != operation then Some(ScopeMismatch)
      else if now > rec.expiresAt then Some(Expired)
      else None
  }

  /** Issued for exactly this tool, run and operation, not spent and not past its time. */
  predicate Usable(rec: Record, toolRef: string, runId: string, operation: string, now: real) {
    && !rec.used && rec.toolRef == toolRef && rec.runId == runId && rec.operation == operation
    && now <= rec.expiresAt
  }

  /** A usable token is accepted and nothing else is; a token that is wrong in several ways is refused as unknown, else as
      spent, else for its scope, else for its time. */
  lemma RefusalExactly(m: Records, token: Token, toolRef: string, runId: string, operation: string, now: real)
    ensures
      var refusal := Refusal(m, token, toolRef, runId, operation, now);
      && (refusal == Some(Unknown) <==> token.secret !in m)
      && (token.secret in m ==>
            var rec := m[token.secret];
            var foreign := rec.toolRef != toolRef || rec.runId != runId || rec.operation != operation;
            && (refusal.None? <==> Usable(rec, toolRef, runId, operation, now))
            && (refusal == Some(AlreadyUsed) <==> rec.used)
            && (refusal == Some(ScopeMismatch) <==> !rec.used && foreign)
            && (refusal == Some(Expired) <==> !rec.used && !foreign && rec.expiresAt < now))
  {
  }

  function Spent(m: Records, secret: string): Records
    requires secret in m
  {
    m[secret := m[secret].(used := true)]
  }

  class TokenIssuer {
    const ttl: real
    var records: Records

    constructor (ttl: real)
      ensures this.ttl == ttl && records == map[]
    {
      this.ttl := ttl;
      records := map[];
    }

    /** `secret` is what the source of randomness delivers. */
    method Issue(secret: string, toolRef: string, runId: string, operation: string, now: real) returns (token: Token)
      modifies this
      ensures token == Token(secret, toolRef, operation, runId)
      ensures records == old(records)[secret := Record(toolRef, operation, runId, now + ttl, false)]
    {
      records := records[secret := Record(toolRef, operation, runId, now + ttl, false)];
      token := Token(secret, toolRef, operation, runId);
    }

    method Consume(token: Token, toolRef: string, runId: string, operation: string, now: real)
      returns (refusal: Option<TokenError>)
      modifies this
      ensures refusal == Refusal(old(records), token, toolRef, runId, operation, now)
      ensures refusal.None? <==>
        token.secret in old(records) && Usable(old(records)[token.secret], toolRef, runId, operation, now)
      ensures refusal.Some? ==> records == old(records)
      ensures refusal.None? ==> token.secret in old(records) && records == Spent(old(records), token.secret)
    {
      if token.secret !in records {
        return Some(Unknown);
      }
      var rec := records[token.secret];
      if rec.used {
        return Some(AlreadyUsed);
      }
      if rec.toolRef != toolRef || rec.runId != runId || rec.operation != operation {
        return Some(ScopeMismatch);
      }
      if now > rec.expiresAt {
        return Some(Expired);
      }
      records := records[token.secret := rec.(used := true)];
      refusal := None;
    }
  }
}
