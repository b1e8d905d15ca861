/** The query shapes the admin and user services share: the inner join of a row with its owning
    account, newest-first ordering on `created_at`, and the two loop forms that build result lists
    (`for row in rows: items.append(...)`, with or without a condition). */
module Queries {
  import opened Wrappers
  import opened Seqs
  import opened Sorting
  import opened Records

  /** `User.full_name` of the row's owner; None when the owner row is missing, so the inner join
      drops the row. */
  function CustomerName(users: seq<User>, userId: int): (r: Option<string>)
    ensures r.Some? <==> exists i :: 0 <= i < |users| && users[i].id == userId
    ensures r.Some? ==> exists i :: 0 <= i < |users| && users[i].id == userId && users[i].fullName == r.value
  {
    match FirstIndex(users, UserIdIs(userId))
    case None => None
    case Some(i) => Some(users[i].fullName)
  }

  /** `ORDER BY created_at DESC` on each table, and on the quote and claim rows of a join. */
  function QuoteNewest(q: QuoteRequest): Key { Key(-q.createdAt, 0) }
  function ClaimNewest(c: Claim): Key { Key(-c.createdAt, 0) }
  function MessageNewest(m: ContactMessage): Key { Key(-m.createdAt, 0) }
  function JoinedQuoteNewest(p: (QuoteRequest, string)): Key { Key(-p.0.createdAt, 0) }
  function JoinedClaimNewest(p: (Claim, string)): Key { Key(-p.0.createdAt, 0) }

  function WithOwnerQuote(users: seq<User>): QuoteRequest -> Option<(QuoteRequest, string)>
  {
    (q: QuoteRequest) => match CustomerName(users, q.userId)
      case None => None
      case Some(name) => Some((q, name))
  }

  function WithOwnerClaim(users: seq<User>): Claim -> Option<(Claim, string)>
  {
    (c: Claim) => match CustomerName(users, c.userId)
      case None => None
      case Some(name) => Some((c, name))
  }

  /** `db.query(QuoteRequest, User.full_name).join(User)` in storage order. */
  function QuotesWithOwner(users: seq<User>, quotes: seq<QuoteRequest>): seq<(QuoteRequest, string)>
  {
    FilterMap(quotes, WithOwnerQuote(users))
  }

  /** `db.query(Claim, User.full_name).join(User)` in storage order. */
  function ClaimsWithOwner(users: seq<User>, claims: seq<Claim>): seq<(Claim, string)>
  {
    FilterMap(claims, WithOwnerClaim(users))
  }

  /** A joined row is exactly a stored row whose owner exists, paired with the owner's name. */
  lemma QuotesWithOwnerSpec(users: seq<User>, quotes: seq<QuoteRequest>, q: QuoteRequest, name: string)
    ensures (q, name) in QuotesWithOwner(users, quotes) <==> q in quotes && CustomerName(users, q.userId) == Some(name)
  {
    FilterMapIn(quotes, WithOwnerQuote(users), (q, name));
  }

  lemma ClaimsWithOwnerSpec(users: seq<User>, claims: seq<Claim>, c: Claim, name: string)
    ensures (c, name) in ClaimsWithOwner(users, claims) <==> c in claims && CustomerName(users, c.userId) == Some(name)
  {
    FilterMapIn(claims, WithOwnerClaim(users), (c, name));
  }

  /** `for row in rows: items.append(f(row))`. */
  method AppendEach<T, U>(items: seq<U>, rows: seq<T>, f: T -> U) returns (r: seq<U>)
    ensures r == items + Map(rows, f)
  {
    r := items;
    for i := 0 to |rows|
      invariant r == items + Map(rows[..i], f)
    {
      MapSnoc(rows, i, f);
      r := r + [f(rows[i])];
    }
    assert rows[..|rows|] == rows;
  }

  /** `for row in rows: if ...: items.append(...)`, the condition and the item folded into `f`. */
  method AppendSome<T, U>(items: seq<U>, rows: seq<T>, f: T -> Option<U>) returns (r: seq<U>)
    ensures r == items + FilterMap(rows, f)
  {
    r := items;
    for i := 0 to |rows|
      invariant r == items + FilterMap(rows[..i], f)
    {
      FilterMapSnoc(rows, i, f);
      match f(rows[i]) {
        case Some(item) => r := r + [item];
        case None =>
      }
    }
    assert rows[..|rows|] == rows;
  }
}
