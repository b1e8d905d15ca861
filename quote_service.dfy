/** `QuoteService`: storing a quote request and the owner's list and detail views. Unlike claims,
    a quote request is stored without any taxonomy check. */
module QuoteService {
  import opened Wrappers
  import opened Seqs
  import opened Sorting
  import opened Text
  import opened Records
  import opened Queries
  import opened Store

  /** The request body `QuoteRequestCreate`, after pydantic's length bounds. */
  datatype QuoteRequestCreate = QuoteRequestCreate(
    category: string, subcategory: Option<string>, quoteData: Json, customerNotes: Option<string>)

  /** The row `create_quote_request` inserts: the four sent fields, status "pending", and the
      agent's columns empty. */
  function NewQuote(id: int, userId: int, q: QuoteRequestCreate, now: int): QuoteRequest
  {
    QuoteRequest(id, userId, q.category, q.subcategory, "pending", q.quoteData, None, q.customerNotes,
                 None, None, None, now)
  }

  function RequestedCall(userId: int, n: QuoteRequest): AuditCall
  {
    AuditCall(Some(userId), "QUOTE_REQUEST_CREATED", Some("QuoteRequest"), Some(n.id),
              Text("User requested a " + InsuranceDescription(n.category, n.subcategory) + " insurance quote"), None)
  }

  /** The description in the call is "category - subcategory" for a truthy subcategory and the
      category alone otherwise. */
  lemma RequestedCallSpec(userId: int, n: QuoteRequest)
    ensures Truthy(n.subcategory) ==>
      RequestedCall(userId, n).details.text == "User requested a " + n.category + " - " + n.subcategory.value + " insurance quote"
    ensures !Truthy(n.subcategory) ==>
      RequestedCall(userId, n).details.text == "User requested a " + n.category + " insurance quote"
  {
  }

  /** `create_quote_request`: always succeeds; one row appended and one audit call issued. */
  method CreateQuoteRequest(db: Database, userId: int, q: QuoteRequestCreate, now: int) returns (n: QuoteRequest)
    requires db.Valid()
    modifies db`quotes, db`nextQuoteId, db`issued
    ensures db.Valid()
    ensures n == NewQuote(old(db.nextQuoteId), userId, q, now)
    ensures n.status == "pending" && n.userId == userId && n.category == q.category && n.subcategory == q.subcategory
    ensures db.quotes == old(db.quotes) + [n] && db.nextQuoteId == old(db.nextQuoteId) + 1
    ensures db.issued == old(db.issued) + [RequestedCall(userId, n)]
  {
    n := NewQuote(db.nextQuoteId, userId, q, now);
    db.AddQuote(n);
    db.Issue(RequestedCall(userId, n));
  }

  function QuoteOwnedBy(userId: int): QuoteRequest -> bool { (q: QuoteRequest) => q.userId == userId }

  /** `get_user_quote_requests`: all of the user's quote requests, newest first. */
  function GetUserQuoteRequests(quotes: seq<QuoteRequest>, userId: int): (r: seq<QuoteRequest>)
    ensures forall q :: q in r <==> q in quotes && q.userId == userId
    ensures multiset(r) == multiset(Filter(quotes, QuoteOwnedBy(userId)))
    ensures forall i, j :: 0 <= i < j < |r| ==> r[i].createdAt >= r[j].createdAt
  {
    var own := Filter(quotes, QuoteOwnedBy(userId));
    var r := SortBy(own, QuoteNewest);
    assert forall i, j :: 0 <= i < j < |r| ==> KeyLe(QuoteNewest(r[i]), QuoteNewest(r[j]));
    assert forall q :: q in r <==> q in own by {
      forall q ensures q in r <==> q in own { SortByIn(own, QuoteNewest, q); }
    }
    assert forall q :: q in own <==> q in quotes && q.userId == userId by {
      forall q ensures q in own <==> q in quotes && q.userId == userId { FilterIn(quotes, QuoteOwnedBy(userId), q); }
    }
    r
  }

  const NotYourQuote: string := "You do not have permission to view this quote request"

  function QuoteNotFound(quoteId: int): string { "Quote request " + IntToString(quoteId) + " not found" }

  /** `get_quote_request_by_id`: a missing key raises `ValueError` (not None, as the other
      services answer); someone else's request raises `PermissionError`. */
  function GetQuoteRequestById(quotes: seq<QuoteRequest>, quoteId: int, userId: int): (r: Outcome<QuoteRequest>)
    ensures r.Ok? ==> r.value in quotes && r.value.id == quoteId && r.value.userId == userId
    ensures r == Raise(ValueError(QuoteNotFound(quoteId))) <==> forall i :: 0 <= i < |quotes| ==> quotes[i].id != quoteId
    ensures r.Raise? && r.exc != ValueError(QuoteNotFound(quoteId)) ==> r.exc == PermissionError(NotYourQuote)
    ensures r == Raise(PermissionError(NotYourQuote)) <==>
      (exists i :: 0 <= i < |quotes| && quotes[i].id == quoteId) && First(quotes, QuoteIdIs(quoteId)).value.userId != userId
    ensures r.Ok? <==>
      (exists i :: 0 <= i < |quotes| && quotes[i].id == quoteId) && First(quotes, QuoteIdIs(quoteId)).value.userId == userId
    ensures r.Ok? ==> r.value == First(quotes, QuoteIdIs(quoteId)).value
  {
    match First(quotes, QuoteIdIs(quoteId))
    case None => Raise(ValueError(QuoteNotFound(quoteId)))
    case Some(q) => if q.userId != userId then Raise(PermissionError(NotYourQuote)) else Ok(q)
  }

  /** A stored request is found by its owner and refused to everyone else. */
  lemma CreatedQuoteIsFound(quotes: seq<QuoteRequest>, n: QuoteRequest, nextId: int, other: int)
    requires forall i :: 0 <= i < |quotes| ==> quotes[i].id < nextId
    requires n.id == nextId && other != n.userId
    ensures GetQuoteRequestById(quotes + [n], n.id, n.userId) == Ok(n)
    ensures GetQuoteRequestById(quotes + [n], n.id, other) == Raise(PermissionError(NotYourQuote))
  {
    var s := quotes + [n];
    assert s[|quotes|] == n;
    assert forall i :: 0 <= i < |quotes| ==> s[i] == quotes[i];
  }
}
