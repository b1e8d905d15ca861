/** `ClaimService`: the category taxonomy of claim reports, the checks a report must pass before it
    is stored, and the owner-only read and cancel operations. */
module ClaimService {
  import opened Wrappers
  import opened Seqs
  import opened Sorting
  import opened Text
  import opened Records
  import opened Queries
  import opened Store
  import opened ClaimSchemas

  // ----- The taxonomy -----

  /** The keys of `VALID_CATEGORIES`, in the order the dictionary lists them. */
  const CategoryNames: seq<string> := ["vehicle", "property", "life", "business", "identity_protection", "other"]

  /** `VALID_CATEGORIES`: each category with its list of subcategories, or None for a category
      that has none. */
  const ValidCategories: map<string, Option<seq<string>>> := map[
    "vehicle" := Some(["auto", "motorcycle", "atv_off_road", "roadside", "snowmobile", "boat", "rv", "vehicle_protection"]),
    "property" := Some(["homeowners", "renters", "condo", "landlord", "mobile_home"]),
    "life" := None,
    "business" := None,
    "identity_protection" := None,
    "other" := Some(["personal_umbrella_policy", "individual_health", "pet", "event", "travel", "jewelry", "collectibles"])]

  /** The listed order names exactly the categories of the table, each once. */
  lemma CategoryNamesAreTheKeys()
    ensures forall c :: c in CategoryNames <==> c in ValidCategories
    ensures forall i, j :: 0 <= i < j < |CategoryNames| ==> CategoryNames[i] != CategoryNames[j]
    ensures forall c :: c in ValidCategories ==>
      (ValidCategories[c].None? <==> c in {"life", "business", "identity_protection"})
  {
  }

  const ContactTimes: seq<string> := ["morning", "afternoon", "evening", "anytime"]

  const InvalidCategoryMessage: string := "Invalid category. Must be one of: " + Join(CategoryNames, ", ")
  const InvalidContactTimeMessage: string := "Invalid preferred contact time. Must be one of: " + Join(ContactTimes, ", ")
  const ShortSummaryMessage: string := "Incident summary must be at least 50 characters"
  const LongSummaryMessage: string := "Incident summary must not exceed 500 characters"
  const LongNotesMessage: string := "Additional notes must not exceed 500 characters"

  /** The joined list of contact times, spelled out. */
  lemma ContactTimeMessageSpelledOut()
    ensures Join(ContactTimes, ", ") == "morning, afternoon, evening, anytime"
    ensures InvalidContactTimeMessage
      == "Invalid preferred contact time. Must be one of: " + "morning, afternoon, evening, anytime"
  {
    JoinedContactTimes(ContactTimes, ", ");
  }

  lemma JoinedContactTimes(t: seq<string>, sep: string)
    requires t == ["morning", "afternoon", "evening", "anytime"] && sep == ", "
    ensures Join(t, sep) == "morning, afternoon, evening, anytime"
  {
    JoinFour(t, sep);
  }

  /** Four parts joined: each separator between two neighbours. */
  lemma JoinFour(t: seq<string>, sep: string)
    requires |t| == 4
    ensures Join(t, sep) == t[0] + sep + t[1] + sep + t[2] + sep + t[3]
  {
    var a := t[..3];
    var b := a[..2];
    assert Join(b[..1], sep) == t[0];
    assert Join(b, sep) == t[0] + sep + t[1];
    assert Join(a, sep) == t[0] + sep + t[1] + sep + t[2];
  }

  // ----- The checks of `create_claim` -----

  /** The message of the `ValueError` the taxonomy checks raise, if any: the category must be a
      key; then a truthy subcategory needs a list that contains it, and a category with a list
      needs a truthy subcategory. */
  function TaxonomyError(category: string, subcategory: Option<string>): Option<string>
  {
    if category !in ValidCategories then Some(InvalidCategoryMessage)
    else
      var subs := ValidCategories[category];
      if Truthy(subcategory) then
        if subs.None? then Some("Category '" + category + "' does not have subcategories")
        else if subcategory.value !in subs.value then
          Some("Invalid subcategory for " + category + ". Must be one of: " + Join(subs.value, ", "))
        else None
      else if subs.Some? then
        Some("Category '" + category + "' requires a subcategory. Must be one of: " + Join(subs.value, ", "))
      else None
  }

  /** The message of the first check of `create_claim` that fails, in source order, or None
      when the report may be stored. */
  function ClaimRejection(c: ClaimCreate): Option<string>
  {
    var taxonomy := TaxonomyError(c.category, c.subcategory);
    if taxonomy.Some? then taxonomy
    else if |c.incidentSummary| < 10 then Some(ShortSummaryMessage)
    else if |c.incidentSummary| > 500 then Some(LongSummaryMessage)
    else if Truthy(c.additionalNotes) && |c.additionalNotes.value| > 500 then Some(LongNotesMessage)
    else if Truthy(c.preferredContactTime) && c.preferredContactTime.value !in ContactTimes then
      Some(InvalidContactTimeMessage)
    else None
  }

  /** The pairs the taxonomy accepts, stated per kind of category. */
  predicate ValidPair(category: string, subcategory: Option<string>)
  {
    (category in {"life", "business", "identity_protection"} && !Truthy(subcategory))
    || (category in {"vehicle", "property", "other"} && Truthy(subcategory)
        && subcategory.value in ValidCategories[category].value)
  }

  /** A report passes every check exactly when its pair is valid, its summary has 10 to 500
      characters (10, although the message speaks of 50), any truthy notes have at most 500 and
      any truthy contact time is one of the four. */
  lemma ClaimAcceptedIff(c: ClaimCreate)
    ensures ClaimRejection(c).None? <==>
      ValidPair(c.category, c.subcategory)
      && 10 <= |c.incidentSummary| <= 500
      && (Truthy(c.additionalNotes) ==> |c.additionalNotes.value| <= 500)
      && (Truthy(c.preferredContactTime) ==> c.preferredContactTime.value in ContactTimes)
  {
    assert TaxonomyError(c.category, c.subcategory).None? <==> ValidPair(c.category, c.subcategory);
  }

  /** An unknown category is refused first, whatever else the report holds. */
  lemma UnknownCategoryRefused(c: ClaimCreate)
    requires c.category !in CategoryNames
    ensures ClaimRejection(c) == Some(InvalidCategoryMessage)
  {
    CategoryNamesAreTheKeys();
  }

  /** A category without subcategories refuses any truthy subcategory. */
  lemma SubcategoryNotAllowed(c: ClaimCreate)
    requires c.category in {"life", "business", "identity_protection"} && Truthy(c.subcategory)
    ensures ClaimRejection(c) == Some("Category '" + c.category + "' does not have subcategories")
  {
  }

  /** A category with subcategories refuses a missing or empty one, and one not in its list. */
  lemma SubcategoryRequired(c: ClaimCreate)
    requires c.category in {"vehicle", "property", "other"}
    ensures !Truthy(c.subcategory) ==>
      ClaimRejection(c) == Some("Category '" + c.category + "' requires a subcategory. Must be one of: "
                                + Join(ValidCategories[c.category].value, ", "))
    ensures Truthy(c.subcategory) && c.subcategory.value !in ValidCategories[c.category].value ==>
      ClaimRejection(c) == Some("Invalid subcategory for " + c.category + ". Must be one of: "
                                + Join(ValidCategories[c.category].value, ", "))
  {
  }

  /** A summary of nine characters is refused with the "50 characters" message, and one of ten
      passes the length checks. */
  lemma SummaryThresholdIsTen(c: ClaimCreate)
    requires ValidPair(c.category, c.subcategory)
    ensures |c.incidentSummary| == 9 ==> ClaimRejection(c) == Some(ShortSummaryMessage)
    ensures |c.incidentSummary| == 10 && !Truthy(c.additionalNotes) && !Truthy(c.preferredContactTime)
      ==> ClaimRejection(c).None?
  {
    ClaimAcceptedIff(c);
  }

  /** A body the schema accepted never trips the service's own length checks, which only repeat
      the schema's bounds: the taxonomy and the contact time are all that can still refuse it. */
  lemma SchemaCoversLengthChecks(c: ClaimCreate, today: Date)
    requires FieldErrors(c, today) == []
    ensures ClaimRejection(c) ==
      (if TaxonomyError(c.category, c.subcategory).Some? then TaxonomyError(c.category, c.subcategory)
       else if Truthy(c.preferredContactTime) && c.preferredContactTime.value !in ContactTimes
       then Some(InvalidContactTimeMessage)
       else None)
  {
    FieldErrorsSpec(c, today);
    assert WithinBounds(c, today);
  }

  // ----- Storing a report -----

  /** The row `create_claim` inserts: the key is the next one, the status "submitted", and the
      admin-side columns are empty. */
  function NewClaim(id: int, userId: int, c: ClaimCreate, now: int): Claim
  {
    Claim(id, userId, c.category, c.subcategory, c.incidentDate, c.incidentSummary, c.claimData,
          c.appointmentRequested, c.contactPreference, c.preferredContactTime, c.additionalNotes,
          "submitted", None, None, now)
  }

  /** The audit call issued for a stored claim. */
  function SubmittedCall(userId: int, n: Claim): AuditCall
  {
    AuditCall(Some(userId), "CLAIM_SUBMITTED", Some("Claim"), Some(n.id),
              Text("User submitted a " + InsuranceDescription(n.category, n.subcategory) + " insurance claim report"),
              None)
  }

  /** `create_claim`: a refused report raises `ValueError` and changes nothing; otherwise one row
      with the next key and status "submitted" is appended and one audit call issued. */
  method CreateClaim(db: Database, userId: int, c: ClaimCreate, now: int) returns (r: Outcome<Claim>)
    requires db.Valid()
    modifies db`claims, db`nextClaimId, db`issued
    ensures db.Valid()
    ensures ClaimRejection(c).Some? ==>
      r == Raise(ValueError(ClaimRejection(c).value))
      && db.claims == old(db.claims) && db.nextClaimId == old(db.nextClaimId) && db.issued == old(db.issued)
    ensures ClaimRejection(c).None? ==>
      var n := NewClaim(old(db.nextClaimId), userId, c, now);
      r == Ok(n) && n.status == "submitted" && n.userId == userId
      && db.claims == old(db.claims) + [n] && db.nextClaimId == old(db.nextClaimId) + 1
      && db.issued == old(db.issued) + [SubmittedCall(userId, n)]
  {
    var rejection := ClaimRejection(c);
    if rejection.Some? {
      return Raise(ValueError(rejection.value));
    }
    var n := NewClaim(db.nextClaimId, userId, c, now);
    db.AddClaim(n);
    db.Issue(SubmittedCall(userId, n));
    r := Ok(n);
  }

  /** A stored claim becomes the only row with its key, so the owner finds it afterwards. */
  lemma CreatedClaimIsFound(claims: seq<Claim>, n: Claim, nextId: int)
    requires forall i :: 0 <= i < |claims| ==> claims[i].id < nextId
    requires n.id == nextId
    ensures GetClaimById(claims + [n], n.id, n.userId) == Ok(Some(n))
  {
    var s := claims + [n];
    assert s[|claims|] == n;
    assert forall i :: 0 <= i < |claims| ==> s[i] == claims[i];
  }

  // ----- Reading and cancelling -----

  function ClaimOwnedBy(userId: int): Claim -> bool { (c: Claim) => c.userId == userId }

  /** `get_user_claims`: the user's own claims, newest first, `skip` left out, at most `limit`. */
  function GetUserClaims(claims: seq<Claim>, userId: int, skip: nat, limit: nat): (r: seq<Claim>)
    ensures |r| <= limit
    ensures forall c :: c in r ==> c in claims && c.userId == userId
    ensures forall i, j :: 0 <= i < j < |r| ==> r[i].createdAt >= r[j].createdAt
  {
    var r := Page(claims, ClaimOwnedBy(userId), ClaimNewest, skip, limit);
    assert forall i, j :: 0 <= i < j < |r| ==> KeyLe(ClaimNewest(r[i]), ClaimNewest(r[j]));
    r
  }

  /** The page is the slice `[skip, skip + limit)` of the user's claims sorted newest first: as
      long as that slice, together with the claims skipped before it and those left after it
      exactly the user's claims, no newer than any skipped one and no older than any left after. */
  lemma GetUserClaimsPage(claims: seq<Claim>, userId: int, skip: nat, limit: nat)
    ensures var r := GetUserClaims(claims, userId, skip, limit);
      var n := Count(claims, ClaimOwnedBy(userId));
      |r| == (if n <= skip then 0 else if n - skip <= limit then n - skip else limit)
    ensures var r := GetUserClaims(claims, userId, skip, limit);
      var own := SortBy(Filter(claims, ClaimOwnedBy(userId)), ClaimNewest);
      multiset(Filter(claims, ClaimOwnedBy(userId))) == multiset(Take(own, skip)) + multiset(r) + multiset(Drop(own, skip + limit))
      && AllBefore(Take(own, skip), r, ClaimNewest) && AllBefore(r, Drop(own, skip + limit), ClaimNewest)
  {
    PageSpec(claims, ClaimOwnedBy(userId), ClaimNewest, skip, limit);
  }

  /** With no offset and a large enough limit, every claim of the user is listed. */
  lemma GetUserClaimsComplete(claims: seq<Claim>, userId: int, limit: nat)
    requires limit >= Count(claims, ClaimOwnedBy(userId))
    ensures forall c :: c in claims && c.userId == userId ==> c in GetUserClaims(claims, userId, 0, limit)
  {
    PageComplete(claims, ClaimOwnedBy(userId), ClaimNewest, limit);
  }

  const NotYourClaim: string := "You do not have permission to view this claim"

  /** `get_claim_by_id`: the first row with the key; None when there is none, `PermissionError`
      when it belongs to someone else. */
  function GetClaimById(claims: seq<Claim>, claimId: int, userId: int): (r: Outcome<Option<Claim>>)
    ensures r == Ok(None) <==> forall i :: 0 <= i < |claims| ==> claims[i].id != claimId
    ensures r.Raise? <==> exists i :: 0 <= i < |claims| && claims[i].id == claimId && First(claims, ClaimIdIs(claimId)).value.userId != userId
    ensures r.Raise? ==> r.exc == PermissionError(NotYourClaim)
    ensures r.Ok? && r.value.Some? ==> r.value.value in claims && r.value.value.id == claimId && r.value.value.userId == userId
  {
    match First(claims, ClaimIdIs(claimId))
    case None => Ok(None)
    case Some(c) => if c.userId != userId then Raise(PermissionError(NotYourClaim)) else Ok(Some(c))
  }

  /** The audit call issued before a claim is removed. */
  function CancelledCall(userId: int, c: Claim): AuditCall
  {
    AuditCall(Some(userId), "CLAIM_CANCELLED", Some("Claim"), Some(c.id),
              Text("User cancelled " + InsuranceDescription(c.category, c.subcategory) + " claim report"), None)
  }

  const OnlySubmittedCancel: string := "Only claims with SUBMITTED status can be cancelled"

  /** `delete_claim`: missing → false; someone else's → `PermissionError` (before the status is
      looked at); not "submitted" → `ValueError`; in these cases nothing changes. Otherwise the
      cancel call is issued, then the row is removed, and the answer is true. */
  method DeleteClaim(db: Database, claimId: int, userId: int) returns (r: Outcome<bool>)
    requires db.Valid()
    modifies db`claims, db`issued
    ensures db.Valid()
    ensures var found := GetClaimById(old(db.claims), claimId, userId);
      if found.Raise? then
        r == Raise(found.exc) && db.claims == old(db.claims) && db.issued == old(db.issued)
      else if found.value.None? then
        r == Ok(false) && db.claims == old(db.claims) && db.issued == old(db.issued)
      else if found.value.value.status != "submitted" then
        r == Raise(ValueError(OnlySubmittedCancel)) && db.claims == old(db.claims) && db.issued == old(db.issued)
      else
        var i := FirstIndex(old(db.claims), ClaimIdIs(claimId)).value;
        r == Ok(true)
        && db.claims == old(db.claims)[..i] + old(db.claims)[i + 1..]
        && db.issued == old(db.issued) + [CancelledCall(userId, found.value.value)]
  {
    var found := GetClaimById(db.claims, claimId, userId);
    if found.Raise? {
      return Raise(found.exc);
    }
    if found.value.None? {
      return Ok(false);
    }
    var claim := found.value.value;
    if claim.status != "submitted" {
      return Raise(ValueError(OnlySubmittedCancel));
    }
    db.Issue(CancelledCall(userId, claim));
    var idx := FirstIndex(db.claims, ClaimIdIs(claimId));
    FirstIsFirstIndex(db.claims, ClaimIdIs(claimId));
    db.RemoveClaim(idx.value);
    r := Ok(true);
  }

  /** `First` is the element at `FirstIndex`. */
  lemma FirstIsFirstIndex<T>(s: seq<T>, p: T -> bool)
    ensures First(s, p).Some? <==> FirstIndex(s, p).Some?
    ensures First(s, p).Some? ==> First(s, p).value == s[FirstIndex(s, p).value]
  {
  }

  /** Once cancelled, the claim is gone: keys are unique, so no row with that key is left. */
  lemma CancelledClaimIsGone(claims: seq<Claim>, i: nat)
    requires i < |claims|
    requires forall a, b :: 0 <= a < b < |claims| ==> claims[a].id != claims[b].id
    ensures forall c :: c in claims[..i] + claims[i + 1..] ==> c.id != claims[i].id
  {
    forall c | c in claims[..i] + claims[i + 1..] ensures c.id != claims[i].id {
      var k :| 0 <= k < |claims[..i] + claims[i + 1..]| && (claims[..i] + claims[i + 1..])[k] == c;
      assert c == claims[if k < i then k else k + 1];
    }
  }
}
