/** The admin edits (`update_quote`, `update_claim`, `update_message`, `update_user`) and the
    detail views they answer with (`get_quote_detail`, `get_claim_detail`,
    `get_message_detail`). Each edit looks the record up, validates, applies the sent fields one
    by one while recording in `changes` only the fields whose value really differs, stores the
    record, and issues an audit call only when `changes` is non-empty. */
module AdminUpdates {
  import opened Wrappers
  import opened Seqs
  import opened Records
  import opened Store
  import opened AdminActivity
  import opened AdminUsers

  // ----- Update inputs (the `Admin*Update` request bodies) -----

  /** `quoteAmount` is in cents. */
  datatype QuoteUpdate = QuoteUpdate(status: Option<string>, quoteAmount: Option<int>, agentNotes: Option<string>)
  datatype ClaimUpdate = ClaimUpdate(status: Option<string>, adminNotes: Option<string>, appointmentRequested: Option<Date>)
  datatype MessageUpdate = MessageUpdate(status: Option<string>, adminResponse: Option<string>)
  datatype UserUpdate = UserUpdate(isActive: Option<bool>, isAdmin: Option<bool>)

  /** `if update_data.status and update_data.status not in valid_statuses`: only a non-empty
      status is checked. */
  predicate StatusRejected(status: Option<string>, allowed: seq<string>)
  {
    status.Some? && status.value != "" && status.value !in allowed
  }

  // ----- Detail views -----

  /** `AdminQuoteDetail`: the quote with its owner's name, e-mail and phone. */
  datatype QuoteView = QuoteView(quote: QuoteRequest, customerName: string, customerEmail: string, customerPhone: Option<string>)
  datatype ClaimView = ClaimView(claim: Claim, customerName: string, customerEmail: string, customerPhone: Option<string>)
  /** `AdminMessageDetail`: the message, and whether it came from a guest. */
  datatype MessageView = MessageView(message: ContactMessage, isGuest: bool)

  /** `get_quote_detail`: None when the id is unknown or the quote's owner is missing (inner
      join). */
  function GetQuoteDetail(users: seq<User>, quotes: seq<QuoteRequest>, quoteId: int): (r: Option<QuoteView>)
    ensures r.Some? ==> r.value.quote in quotes && r.value.quote.id == quoteId
    ensures r.None? <==> (forall i :: 0 <= i < |quotes| ==> quotes[i].id != quoteId)
                         || First(users, UserIdIs(First(quotes, QuoteIdIs(quoteId)).value.userId)).None?
  {
    match First(quotes, QuoteIdIs(quoteId))
    case None => None
    case Some(q) =>
      match First(users, UserIdIs(q.userId))
      case None => None
      case Some(owner) => Some(QuoteView(q, owner.fullName, owner.email, owner.phone))
  }

  function GetClaimDetail(users: seq<User>, claims: seq<Claim>, claimId: int): (r: Option<ClaimView>)
    ensures r.Some? ==> r.value.claim in claims && r.value.claim.id == claimId
    ensures r.None? <==> (forall i :: 0 <= i < |claims| ==> claims[i].id != claimId)
                         || First(users, UserIdIs(First(claims, ClaimIdIs(claimId)).value.userId)).None?
  {
    match First(claims, ClaimIdIs(claimId))
    case None => None
    case Some(c) =>
      match First(users, UserIdIs(c.userId))
      case None => None
      case Some(owner) => Some(ClaimView(c, owner.fullName, owner.email, owner.phone))
  }

  /** `get_message_detail` (admin): no join, so guest messages are found too. */
  function GetMessageDetail(messages: seq<ContactMessage>, messageId: int): (r: Option<MessageView>)
    ensures r.None? <==> forall i :: 0 <= i < |messages| ==> messages[i].id != messageId
    ensures r.Some? ==> r.value.message in messages && r.value.message.id == messageId
                        && (r.value.isGuest <==> r.value.message.userId.None?)
  {
    match First(messages, MessageIdIs(messageId))
    case None => None
    case Some(m) => Some(MessageView(m, m.userId.None?))
  }

  // ----- Quotes -----

  /** `float(old) if old else None`: an old amount of zero is reported as None. */
  function OldAmount(a: Option<int>): Option<int>
  {
    if a.Some? && a.value != 0 then a else None
  }

  /** The quote after the edit: every sent field takes the sent value, and `quoted_at` is stamped
      when the status moves to "quoted" from anything else. */
  function QuoteUpdated(q: QuoteRequest, u: QuoteUpdate, now: int): QuoteRequest
  {
    q.(status := if u.status.Some? then u.status.value else q.status,
       quotedAt := if u.status == Some("quoted") && q.status != "quoted" then Some(now) else q.quotedAt,
       quoteAmount := if u.quoteAmount.Some? then u.quoteAmount else q.quoteAmount,
       agentNotes := if u.agentNotes.Some? then u.agentNotes else q.agentNotes)
  }

  /** The `changes` dictionary of `update_quote`: one key per sent field whose value differs. */
  function QuoteChanges(q: QuoteRequest, u: QuoteUpdate): map<string, ChangeValue>
  {
    var m1: map<string, ChangeValue> :=
      if u.status.Some? && u.status.value != q.status then map["status" := StatusChange(q.status, u.status.value)] else map[];
    var m2 := if u.quoteAmount.Some? && u.quoteAmount != q.quoteAmount
              then m1["quote_amount" := AmountChange(OldAmount(q.quoteAmount), u.quoteAmount.value)] else m1;
    if u.agentNotes.Some? && u.agentNotes != q.agentNotes then m2["agent_notes" := TextUpdated] else m2
  }

  /** The audit call `update_quote` issues: one exactly when something changed. */
  function QuoteLog(q: QuoteRequest, u: QuoteUpdate, adminUserId: int): seq<AuditCall>
  {
    if QuoteChanges(q, u) == map[] then []
    else [AuditCall(Some(adminUserId), "QUOTE_UPDATED_BY_ADMIN", Some("QuoteRequest"), Some(q.id),
                    Changes("Admin updated quote request: ", QuoteChanges(q, u)), None)]
  }

  /** The field steps of `update_quote`, in their order, growing `changes` as they go. */
  method ApplyQuoteUpdate(original: QuoteRequest, u: QuoteUpdate, now: int)
    returns (quote: QuoteRequest, changes: map<string, ChangeValue>)
    ensures quote == QuoteUpdated(original, u, now)
    ensures changes == QuoteChanges(original, u)
  {
    quote := original;
    changes := map[];
    if u.status.Some? {
      if quote.status != u.status.value {
        changes := changes["status" := StatusChange(quote.status, u.status.value)];
        quote := quote.(status := u.status.value);
        if u.status.value == "quoted" {
          quote := quote.(quotedAt := Some(now));
        }
      }
    }
    if u.quoteAmount.Some? {
      if quote.quoteAmount != u.quoteAmount {
        changes := changes["quote_amount" := AmountChange(OldAmount(quote.quoteAmount), u.quoteAmount.value)];
        quote := quote.(quoteAmount := u.quoteAmount);
      }
    }
    if u.agentNotes.Some? {
      if quote.agentNotes != u.agentNotes {
        changes := changes["agent_notes" := TextUpdated];
        quote := quote.(agentNotes := u.agentNotes);
      }
    }
  }

  const QuoteStatusError: string := "Invalid status. Must be one of: pending, in_review, quoted, accepted, declined"

  /** `update_quote`. */
  method UpdateQuote(db: Database, quoteId: int, u: QuoteUpdate, adminUserId: int, now: int)
    returns (r: Outcome<Option<QuoteView>>)
    requires db.Valid()
    modifies db`quotes, db`issued
    ensures db.Valid()
    ensures var idx := FirstIndex(old(db.quotes), QuoteIdIs(quoteId));
      if idx.None? then
        r == Ok(None) && db.quotes == old(db.quotes) && db.issued == old(db.issued)
      else if StatusRejected(u.status, QuoteStatuses) then
        r == Raise(ValueError(QuoteStatusError)) && db.quotes == old(db.quotes) && db.issued == old(db.issued)
      else
        var q := old(db.quotes)[idx.value];
        db.quotes == old(db.quotes)[idx.value := QuoteUpdated(q, u, now)]
        && db.issued == old(db.issued) + QuoteLog(q, u, adminUserId)
        && r == Ok(GetQuoteDetail(db.users, db.quotes, quoteId))
  {
    var idx := FirstIndex(db.quotes, QuoteIdIs(quoteId));
    if idx.None? {
      return Ok(None);
    }
    var i := idx.value;
    var quote := db.quotes[i];
    if u.status.Some? && u.status.value != "" && u.status.value !in QuoteStatuses {
      return Raise(ValueError(QuoteStatusError));
    }
    var changes;
    quote, changes := ApplyQuoteUpdate(quote, u, now);
    assert quote.id == db.quotes[i].id;
    db.SetQuote(i, quote);
    if changes != map[] {
      db.Issue(AuditCall(Some(adminUserId), "QUOTE_UPDATED_BY_ADMIN", Some("QuoteRequest"), Some(quote.id),
                         Changes("Admin updated quote request: ", changes), None));
    }
    r := Ok(GetQuoteDetail(db.users, db.quotes, quoteId));
  }

  // ----- Claims -----

  function ClaimUpdated(c: Claim, u: ClaimUpdate, now: int): Claim
  {
    c.(status := if u.status.Some? then u.status.value else c.status,
       contactedAt := if u.status == Some("contacted") && c.status != "contacted" then Some(now) else c.contactedAt,
       adminNotes := if u.adminNotes.Some? then u.adminNotes else c.adminNotes,
       appointmentRequested := if u.appointmentRequested.Some? then u.appointmentRequested else c.appointmentRequested)
  }

  function ClaimChanges(c: Claim, u: ClaimUpdate): map<string, ChangeValue>
  {
    var m1: map<string, ChangeValue> :=
      if u.status.Some? && u.status.value != c.status then map["status" := StatusChange(c.status, u.status.value)] else map[];
    var m2 := if u.adminNotes.Some? && u.adminNotes != c.adminNotes then m1["admin_notes" := TextUpdated] else m1;
    if u.appointmentRequested.Some? && u.appointmentRequested != c.appointmentRequested
    then m2["appointment_requested" := DateChange(c.appointmentRequested, u.appointmentRequested.value)]
    else m2
  }

  function ClaimLog(c: Claim, u: ClaimUpdate, adminUserId: int): seq<AuditCall>
  {
    if ClaimChanges(c, u) == map[] then []
    else [AuditCall(Some(adminUserId), "CLAIM_UPDATED_BY_ADMIN", Some("Claim"), Some(c.id),
                    Changes("Admin updated claim: ", ClaimChanges(c, u)), None)]
  }

  /** The field steps of `update_claim`. */
  method ApplyClaimUpdate(original: Claim, u: ClaimUpdate, now: int)
    returns (claim: Claim, changes: map<string, ChangeValue>)
    ensures claim == ClaimUpdated(original, u, now)
    ensures changes == ClaimChanges(original, u)
  {
    claim := original;
    changes := map[];
    if u.status.Some? {
      if claim.status != u.status.value {
        changes := changes["status" := StatusChange(claim.status, u.status.value)];
        claim := claim.(status := u.status.value);
        if u.status.value == "contacted" {
          claim := claim.(contactedAt := Some(now));
        }
      }
    }
    if u.adminNotes.Some? {
      if claim.adminNotes != u.adminNotes {
        changes := changes["admin_notes" := TextUpdated];
        claim := claim.(adminNotes := u.adminNotes);
      }
    }
    if u.appointmentRequested.Some? {
      if claim.appointmentRequested != u.appointmentRequested {
        changes := changes["appointment_requested" := DateChange(claim.appointmentRequested, u.appointmentRequested.value)];
        claim := claim.(appointmentRequested := u.appointmentRequested);
      }
    }
  }

  const ClaimStatusError: string := "Invalid status. Must be one of: submitted, contacted, closed"

  /** `update_claim`. */
  method UpdateClaim(db: Database, claimId: int, u: ClaimUpdate, adminUserId: int, now: int)
    returns (r: Outcome<Option<ClaimView>>)
    requires db.Valid()
    modifies db`claims, db`issued
    ensures db.Valid()
    ensures var idx := FirstIndex(old(db.claims), ClaimIdIs(claimId));
      if idx.None? then
        r == Ok(None) && db.claims == old(db.claims) && db.issued == old(db.issued)
      else if StatusRejected(u.status, ClaimStatuses) then
        r == Raise(ValueError(ClaimStatusError)) && db.claims == old(db.claims) && db.issued == old(db.issued)
      else
        var c := old(db.claims)[idx.value];
        db.claims == old(db.claims)[idx.value := ClaimUpdated(c, u, now)]
        && db.issued == old(db.issued) + ClaimLog(c, u, adminUserId)
        && r == Ok(GetClaimDetail(db.users, db.claims, claimId))
  {
    var idx := FirstIndex(db.claims, ClaimIdIs(claimId));
    if idx.None? {
      return Ok(None);
    }
    var i := idx.value;
    var claim := db.claims[i];
    if u.status.Some? && u.status.value != "" && u.status.value !in ClaimStatuses {
      return Raise(ValueError(ClaimStatusError));
    }
    var changes;
    claim, changes := ApplyClaimUpdate(claim, u, now);
    assert claim.id == db.claims[i].id;
    db.SetClaim(i, claim);
    if changes != map[] {
      db.Issue(AuditCall(Some(adminUserId), "CLAIM_UPDATED_BY_ADMIN", Some("Claim"), Some(claim.id),
                         Changes("Admin updated claim: ", changes), None));
    }
    r := Ok(GetClaimDetail(db.users, db.claims, claimId));
  }

  // ----- Contact messages -----

  /** Whether the sent response differs from the stored one. */
  predicate ResponseChanges(m: ContactMessage, u: MessageUpdate)
  {
    u.adminResponse.Some? && u.adminResponse != m.adminResponse
  }

  /** The status after the explicit status step, before the automatic advance. */
  function StatusAfterStep(m: ContactMessage, u: MessageUpdate): string
  {
    if u.status.Some? then u.status.value else m.status
  }

  /** The message after the edit: a changed response is stored with `responded_at` stamped, and
      moves a new or read message to "responded". */
  function MessageUpdated(m: ContactMessage, u: MessageUpdate, now: int): ContactMessage
  {
    var s := StatusAfterStep(m, u);
    m.(status := if ResponseChanges(m, u) && (s == "new" || s == "read") then "responded" else s,
       adminResponse := if u.adminResponse.Some? then u.adminResponse else m.adminResponse,
       respondedAt := if ResponseChanges(m, u) then Some(now) else m.respondedAt)
  }

  function MessageChanges(m: ContactMessage, u: MessageUpdate): map<string, ChangeValue>
  {
    var s := StatusAfterStep(m, u);
    var m1: map<string, ChangeValue> :=
      if u.status.Some? && u.status.value != m.status then map["status" := StatusChange(m.status, u.status.value)] else map[];
    if !ResponseChanges(m, u) then m1
    else if s == "new" || s == "read" then m1["admin_response" := TextUpdated]["status" := AutoUpdated("responded")]
    else m1["admin_response" := TextUpdated]
  }

  function MessageLog(m: ContactMessage, u: MessageUpdate, adminUserId: int): seq<AuditCall>
  {
    if MessageChanges(m, u) == map[] then []
    else [AuditCall(Some(adminUserId), "MESSAGE_UPDATED_BY_ADMIN", Some("ContactMessage"), Some(m.id),
                    Changes("Admin updated message: ", MessageChanges(m, u)), None)]
  }

  /** The field steps of `update_message`: the status step, then the response step with its
      automatic advance. */
  method ApplyMessageUpdate(original: ContactMessage, u: MessageUpdate, now: int)
    returns (message: ContactMessage, changes: map<string, ChangeValue>)
    ensures message == MessageUpdated(original, u, now)
    ensures changes == MessageChanges(original, u)
  {
    message := original;
    changes := map[];
    if u.status.Some? {
      if message.status != u.status.value {
        changes := changes["status" := StatusChange(message.status, u.status.value)];
        message := message.(status := u.status.value);
      }
    }
    assert message.status == StatusAfterStep(original, u);
    if u.adminResponse.Some? {
      if message.adminResponse != u.adminResponse {
        changes := changes["admin_response" := TextUpdated];
        message := message.(adminResponse := u.adminResponse, respondedAt := Some(now));
        if message.status == "new" || message.status == "read" {
          message := message.(status := "responded");
          changes := changes["status" := AutoUpdated("responded")];
        }
      }
    }
  }

  const MessageStatusError: string := "Invalid status. Must be one of: new, read, responded, closed"

  /** `update_message`. */
  method UpdateMessage(db: Database, messageId: int, u: MessageUpdate, adminUserId: int, now: int)
    returns (r: Outcome<Option<MessageView>>)
    requires db.Valid()
    modifies db`messages, db`issued
    ensures db.Valid()
    ensures var idx := FirstIndex(old(db.messages), MessageIdIs(messageId));
      if idx.None? then
        r == Ok(None) && db.messages == old(db.messages) && db.issued == old(db.issued)
      else if StatusRejected(u.status, MessageStatuses) then
        r == Raise(ValueError(MessageStatusError)) && db.messages == old(db.messages) && db.issued == old(db.issued)
      else
        var m := old(db.messages)[idx.value];
        db.messages == old(db.messages)[idx.value := MessageUpdated(m, u, now)]
        && db.issued == old(db.issued) + MessageLog(m, u, adminUserId)
        && r == Ok(GetMessageDetail(db.messages, messageId))
  {
    var idx := FirstIndex(db.messages, MessageIdIs(messageId));
    if idx.None? {
      return Ok(None);
    }
    var i := idx.value;
    var message := db.messages[i];
    if u.status.Some? && u.status.value != "" && u.status.value !in MessageStatuses {
      return Raise(ValueError(MessageStatusError));
    }
    var changes;
    message, changes := ApplyMessageUpdate(message, u, now);
    db.SetMessage(i, message);
    if changes != map[] {
      db.Issue(AuditCall(Some(adminUserId), "MESSAGE_UPDATED_BY_ADMIN", Some("ContactMessage"), Some(message.id),
                         Changes("Admin updated message: ", changes), None));
    }
    r := Ok(GetMessageDetail(db.messages, messageId));
  }

  // ----- Accounts -----

  function UserUpdated(x: User, u: UserUpdate): User
  {
    x.(isActive := if u.isActive.Some? then u.isActive.value else x.isActive,
       isAdmin := if u.isAdmin.Some? then u.isAdmin.value else x.isAdmin)
  }

  function UserChanges(x: User, u: UserUpdate): map<string, ChangeValue>
  {
    var m1: map<string, ChangeValue> :=
      if u.isActive.Some? && u.isActive.value != x.isActive then map["is_active" := FlagChange(x.isActive, u.isActive.value)] else map[];
    if u.isAdmin.Some? && u.isAdmin.value != x.isAdmin then m1["is_admin" := FlagChange(x.isAdmin, u.isAdmin.value)] else m1
  }

  function UserLog(x: User, u: UserUpdate, adminUserId: int): seq<AuditCall>
  {
    if UserChanges(x, u) == map[] then []
    else [AuditCall(Some(adminUserId), "USER_UPDATED_BY_ADMIN", Some("User"), Some(x.id),
                    Changes("Admin updated user: ", UserChanges(x, u)), None)]
  }

  /** The field steps of `update_user`. */
  method ApplyUserUpdate(original: User, u: UserUpdate)
    returns (user: User, changes: map<string, ChangeValue>)
    ensures user == UserUpdated(original, u)
    ensures changes == UserChanges(original, u)
  {
    user := original;
    changes := map[];
    if u.isActive.Some? {
      if user.isActive != u.isActive.value {
        changes := changes["is_active" := FlagChange(user.isActive, u.isActive.value)];
        user := user.(isActive := u.isActive.value);
      }
    }
    if u.isAdmin.Some? {
      if user.isAdmin != u.isAdmin.value {
        changes := changes["is_admin" := FlagChange(user.isAdmin, u.isAdmin.value)];
        user := user.(isAdmin := u.isAdmin.value);
      }
    }
  }

  /** The self-demotion guard of `update_user`. */
  predicate SelfDemotion(userId: int, u: UserUpdate, adminUserId: int)
  {
    userId == adminUserId && u.isAdmin == Some(false)
  }

  /** The write and the log call of `update_user` for the account at index `i`. */
  method WriteUserUpdate(db: Database, i: nat, u: UserUpdate, adminUserId: int) returns (user: User)
    requires i < |db.users|
    modifies db`users, db`issued
    ensures user == UserUpdated(old(db.users)[i], u)
    ensures db.users == old(db.users)[i := user]
    ensures db.issued == old(db.issued) + UserLog(old(db.users)[i], u, adminUserId)
    ensures UniqueUserIds(old(db.users)) ==> UniqueUserIds(db.users)
  {
    var changes;
    user, changes := ApplyUserUpdate(db.users[i], u);
    db.users := db.users[i := user];
    if changes != map[] {
      db.Issue(AuditCall(Some(adminUserId), "USER_UPDATED_BY_ADMIN", Some("User"), Some(user.id),
                         Changes("Admin updated user: ", changes), None));
    }
  }

  /** `update_user`: answers with `get_user_detail` without a date range. */
  method UpdateUser(db: Database, userId: int, u: UserUpdate, adminUserId: int, now: int)
    returns (r: Outcome<Option<UserDetail>>)
    modifies db`users, db`issued
    ensures UniqueUserIds(old(db.users)) ==> UniqueUserIds(db.users)
    ensures var idx := FirstIndex(old(db.users), UserIdIs(userId));
      if idx.None? then
        r == Ok(None) && db.users == old(db.users) && db.issued == old(db.issued)
      else if SelfDemotion(userId, u, adminUserId) then
        r == Raise(ValueError("Cannot remove your own admin privileges"))
        && db.users == old(db.users) && db.issued == old(db.issued)
      else
        var x := old(db.users)[idx.value];
        db.users == old(db.users)[idx.value := UserUpdated(x, u)]
        && db.issued == old(db.issued) + UserLog(x, u, adminUserId)
        && r == Ok(Some(UserDetail(UserUpdated(x, u), LastLogin(db.auditLogs, userId),
                                   Count(db.quotes, QuoteOf(userId)), Count(db.claims, ClaimOf(userId)),
                                   Count(db.messages, MessageOf(userId)),
                                   UserActivity(db.quotes, db.claims, db.messages, userId, None, now))))
  {
    var idx := FirstIndex(db.users, UserIdIs(userId));
    if idx.None? {
      return Ok(None);
    }
    var i := idx.value;
    var user := db.users[i];
    if userId == adminUserId && u.isAdmin == Some(false) {
      return Raise(ValueError("Cannot remove your own admin privileges"));
    }
    user := WriteUserUpdate(db, i, u, adminUserId);
    assert FirstIndex(db.users, UserIdIs(userId)) == Some(i) by {
      FirstIndexAfterUpdate(old(db.users), i, user, UserIdIs(userId));
    }
    assert db.users[i].id == userId;
    var users, quotes, claims, messages, logs := db.users, db.quotes, db.claims, db.messages, db.auditLogs;
    var detail := GetUserDetail(users, quotes, claims, messages, logs, userId, None, now);
    assert detail.value.user == user;
    r := Ok(detail);
  }

  /** Overwriting the first match with another match keeps it the first match. */
  lemma FirstIndexAfterUpdate<T>(s: seq<T>, i: nat, x: T, p: T -> bool)
    requires FirstIndex(s, p) == Some(i) && p(x)
    ensures FirstIndex(s[i := x], p) == Some(i)
  {
    var t := s[i := x];
    assert forall j :: 0 <= j < i ==> t[j] == s[j];
    FirstIndexAt(t, p, i);
  }

  // ----- Properties of the edits -----

  /** A non-empty status outside the entity's set is refused; the empty string is not checked. */
  lemma StatusCheckSpec(status: Option<string>)
    ensures StatusRejected(status, QuoteStatuses) <==>
      status.Some? && status.value != "" && status.value !in {"pending", "in_review", "quoted", "accepted", "declined"}
    ensures StatusRejected(status, ClaimStatuses) <==>
      status.Some? && status.value != "" && status.value !in {"submitted", "contacted", "closed"}
    ensures StatusRejected(status, MessageStatuses) <==>
      status.Some? && status.value != "" && status.value !in {"new", "read", "responded", "closed"}
  {
  }

  /** An empty-string status passes the check and is then written into the record, and recorded
      as a change whenever the stored status was not already empty. */
  lemma EmptyStatusIsWritten(q: QuoteRequest, c: Claim, m: ContactMessage, now: int)
    ensures !StatusRejected(Some(""), QuoteStatuses) && !StatusRejected(Some(""), ClaimStatuses)
            && !StatusRejected(Some(""), MessageStatuses)
    ensures QuoteUpdated(q, QuoteUpdate(Some(""), None, None), now).status == ""
    ensures ("status" in QuoteChanges(q, QuoteUpdate(Some(""), None, None))) <==> q.status != ""
    ensures ClaimUpdated(c, ClaimUpdate(Some(""), None, None), now).status == ""
    ensures MessageUpdated(m, MessageUpdate(Some(""), None), now).status == ""
  {
  }

  /** The quote's `changes` are empty exactly when the edit leaves the quote as it was, so the
      audit call is issued exactly when the record changes; `quoted_at` moves only on an actual
      transition into "quoted", and then it is `now`. */
  lemma QuoteUpdateSpec(q: QuoteRequest, u: QuoteUpdate, now: int)
    ensures QuoteChanges(q, u) == map[] <==> QuoteUpdated(q, u, now) == q
    ensures |QuoteLog(q, u, 0)| == 1 <==> QuoteUpdated(q, u, now) != q
    ensures var q' := QuoteUpdated(q, u, now);
      (q'.quotedAt != q.quotedAt ==> q.status != "quoted" && q'.status == "quoted")
      && (q.status != "quoted" && q'.status == "quoted" ==> q'.quotedAt == Some(now))
    ensures QuoteChanges(q, u).Keys <= {"status", "quote_amount", "agent_notes"}
  {
    var q' := QuoteUpdated(q, u, now);
    if QuoteChanges(q, u) == map[] {
      assert !("status" in QuoteChanges(q, u));
      assert !("quote_amount" in QuoteChanges(q, u));
      assert !("agent_notes" in QuoteChanges(q, u));
    } else {
      var k :| k in QuoteChanges(q, u);
    }
  }

  /** Sending the same quote edit again changes nothing and issues no call. */
  lemma QuoteUpdateIdempotent(q: QuoteRequest, u: QuoteUpdate, now: int, later: int)
    ensures QuoteUpdated(QuoteUpdated(q, u, now), u, later) == QuoteUpdated(q, u, now)
    ensures QuoteChanges(QuoteUpdated(q, u, now), u) == map[]
  {
    QuoteUpdateSpec(QuoteUpdated(q, u, now), u, later);
  }

  /** The claim counterpart: changes empty exactly when nothing changed; `contacted_at` moves only
      on an actual transition into "contacted". */
  lemma ClaimUpdateSpec(c: Claim, u: ClaimUpdate, now: int)
    ensures ClaimChanges(c, u) == map[] <==> ClaimUpdated(c, u, now) == c
    ensures var c' := ClaimUpdated(c, u, now);
      (c'.contactedAt != c.contactedAt ==> c.status != "contacted" && c'.status == "contacted")
      && (c.status != "contacted" && c'.status == "contacted" ==> c'.contactedAt == Some(now))
    ensures ClaimChanges(c, u).Keys <= {"status", "admin_notes", "appointment_requested"}
  {
    if ClaimChanges(c, u) == map[] {
      assert !("status" in ClaimChanges(c, u));
      assert !("admin_notes" in ClaimChanges(c, u));
      assert !("appointment_requested" in ClaimChanges(c, u));
    } else {
      var k :| k in ClaimChanges(c, u);
    }
  }

  /** A changed response stamps `responded_at` and never leaves the message new or read; the
      changes are empty exactly when nothing changed. */
  lemma MessageUpdateSpec(m: ContactMessage, u: MessageUpdate, now: int)
    ensures ResponseChanges(m, u) ==>
      MessageUpdated(m, u, now).respondedAt == Some(now)
      && MessageUpdated(m, u, now).status !in {"new", "read"}
      && "admin_response" in MessageChanges(m, u)
    ensures !ResponseChanges(m, u) ==> MessageUpdated(m, u, now).respondedAt == m.respondedAt
    ensures MessageChanges(m, u) == map[] <==> MessageUpdated(m, u, now) == m
  {
    if MessageChanges(m, u) == map[] {
      assert !("status" in MessageChanges(m, u));
      assert !("admin_response" in MessageChanges(m, u));
    } else {
      var k :| k in MessageChanges(m, u);
    }
  }

  /** Unlike the quote edit, the message edit is not idempotent: sending status "new" with a new
      response ends in "responded", and sending the same body again puts the status back to
      "new". */
  lemma MessageUpdateNotIdempotent(m: ContactMessage, now: int)
    requires m.status == "new" && m.adminResponse == None
    ensures var u := MessageUpdate(Some("new"), Some("Thanks"));
      MessageUpdated(m, u, now).status == "responded"
      && MessageUpdated(MessageUpdated(m, u, now), u, now).status == "new"
      && MessageUpdated(MessageUpdated(m, u, now), u, now) != MessageUpdated(m, u, now)
  {
  }

  /** The flags change independently of each other, and `changes` is empty exactly when the
      account is left as it was. */
  lemma UserUpdateSpec(x: User, u: UserUpdate)
    ensures UserUpdated(x, u).isActive == UserUpdated(x, UserUpdate(u.isActive, None)).isActive
    ensures UserUpdated(x, u).isAdmin == UserUpdated(x, UserUpdate(None, u.isAdmin)).isAdmin
    ensures UserChanges(x, u) == map[] <==> UserUpdated(x, u) == x
  {
    if UserChanges(x, u) == map[] {
      assert !("is_active" in UserChanges(x, u));
      assert !("is_admin" in UserChanges(x, u));
    } else {
      var k :| k in UserChanges(x, u);
    }
  }
}
