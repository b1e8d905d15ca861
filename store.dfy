/** The database the services work on: one sequence of rows per table, in storage order (the order
    a query without ORDER BY returns them), and the next value of each auto-increment key.

    `log_user_action` is a coroutine that every synchronous service calls without awaiting it, so
    its body never runs from those call sites: the call is created and dropped. The ghost trace
    `issued` records such calls; the `audit_logs` table itself only grows when the body runs
    (AuditLogService.LogUserAction). */
module Store {
  import opened Wrappers
  import opened Records

  /** `users.id` is the primary key of its table. */
  predicate UniqueUserIds(users: seq<User>)
  {
    forall i, j :: 0 <= i < j < |users| ==> users[i].id != users[j].id
  }

  class Database {
    var users: seq<User>
    var quotes: seq<QuoteRequest>
    var claims: seq<Claim>
    var messages: seq<ContactMessage>
    var auditLogs: seq<AuditEntry>
    var nextQuoteId: int
    var nextClaimId: int
    var nextMessageId: int
    var nextAuditId: int
    ghost var issued: seq<AuditCall>

    /** No user id occurs twice; every other stored key is below its table's counter and no key
        occurs twice. */
    ghost predicate Valid()
      reads this`users, this`quotes, this`nextQuoteId, this`claims, this`nextClaimId
      reads this`messages, this`nextMessageId, this`auditLogs, this`nextAuditId
    {
      UniqueUserIds(users)
      && (forall i :: 0 <= i < |quotes| ==> quotes[i].id < nextQuoteId)
      && (forall i, j :: 0 <= i < j < |quotes| ==> quotes[i].id != quotes[j].id)
      && (forall i :: 0 <= i < |claims| ==> claims[i].id < nextClaimId)
      && (forall i, j :: 0 <= i < j < |claims| ==> claims[i].id != claims[j].id)
      && (forall i :: 0 <= i < |messages| ==> messages[i].id < nextMessageId)
      && (forall i, j :: 0 <= i < j < |messages| ==> messages[i].id != messages[j].id)
      && (forall i :: 0 <= i < |auditLogs| ==> auditLogs[i].id < nextAuditId)
      && (forall i, j :: 0 <= i < j < |auditLogs| ==> auditLogs[i].id != auditLogs[j].id)
    }

    /** A database holding the given accounts and nothing else. */
    constructor (accounts: seq<User>)
      requires UniqueUserIds(accounts)
      ensures Valid()
      ensures users == accounts && quotes == [] && claims == [] && messages == [] && auditLogs == []
      ensures issued == []
    {
      users, quotes, claims, messages, auditLogs := accounts, [], [], [], [];
      nextQuoteId, nextClaimId, nextMessageId, nextAuditId := 1, 1, 1, 1;
      issued := [];
    }

    /** `db.add(row)` + `commit`: the new row takes the next key of its table. */
    method AddQuote(q: QuoteRequest)
      requires Valid() && q.id == nextQuoteId
      modifies this`quotes, this`nextQuoteId
      ensures Valid() && quotes == old(quotes) + [q] && nextQuoteId == old(nextQuoteId) + 1
    {
      quotes := quotes + [q];
      nextQuoteId := nextQuoteId + 1;
    }

    method AddClaim(c: Claim)
      requires Valid() && c.id == nextClaimId
      modifies this`claims, this`nextClaimId
      ensures Valid() && claims == old(claims) + [c] && nextClaimId == old(nextClaimId) + 1
    {
      claims := claims + [c];
      nextClaimId := nextClaimId + 1;
    }

    method AddMessage(m: ContactMessage)
      requires Valid() && m.id == nextMessageId
      modifies this`messages, this`nextMessageId
      ensures Valid() && messages == old(messages) + [m] && nextMessageId == old(nextMessageId) + 1
    {
      messages := messages + [m];
      nextMessageId := nextMessageId + 1;
    }

    /** `db.delete(row)` + `commit`. */
    method RemoveClaim(i: nat)
      requires Valid() && i < |claims|
      modifies this`claims
      ensures Valid() && claims == old(claims)[..i] + old(claims)[i + 1..]
    {
      claims := claims[..i] + claims[i + 1..];
      assert forall k :: 0 <= k < |claims| ==> claims[k] == old(claims)[if k < i then k else k + 1];
    }

    /** Writes back an edited quote (the commit of an in-place edit); its key is unchanged. */
    method SetQuote(i: nat, q: QuoteRequest)
      requires Valid() && i < |quotes| && q.id == quotes[i].id
      modifies this`quotes
      ensures Valid() && quotes == old(quotes)[i := q]
    {
      quotes := quotes[i := q];
    }

    method SetClaim(i: nat, c: Claim)
      requires Valid() && i < |claims| && c.id == claims[i].id
      modifies this`claims
      ensures Valid() && claims == old(claims)[i := c]
    {
      claims := claims[i := c];
    }

    method SetMessage(i: nat, m: ContactMessage)
      requires Valid() && i < |messages| && m.id == messages[i].id
      modifies this`messages
      ensures Valid() && messages == old(messages)[i := m]
    {
      messages := messages[i := m];
    }

    /** A call of `log_user_action` that is not awaited: it is recorded and nothing is written. */
    method Issue(call: AuditCall)
      modifies this`issued
      ensures issued == old(issued) + [call]
    {
      issued := issued + [call];
    }
  }
}
