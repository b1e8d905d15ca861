/** The admin dashboard's attention list (`AdminService.get_attention_items` and `_format_age`):
    six rules emit items from the four tables, in a fixed order, and the list is then sorted
    stably by priority rank and by age, oldest first. Emoji icons and link strings are not part
    of the model. */
module AdminAttention {
  import opened Wrappers
  import opened Seqs
  import opened Sorting
  import opened Text
  import opened Records
  import opened Queries

  datatype AttentionItem = AttentionItem(
    kind: string, id: Option<int>, userId: Option<int>, customerName: string, title: string,
    category: string, detail: string, age: string, priority: string)

  const TwoDays: int := 2 * SecondsPerDay

  /** `(now - created_at).days`: whole days, rounded down. */
  function AgeDays(now: int, createdAt: int): int
  {
    (now - createdAt) / SecondsPerDay
  }

  /** `_format_age`. */
  function FormatAge(days: int): string
  {
    if days == 0 then "Today"
    else if days == 1 then "1 day old"
    else IntToString(days) + " days old"
  }

  /** `priority_order.get(priority, 3)`. */
  function Rank(priority: string): int
  {
    if priority == "high" then 0 else if priority == "medium" then 1 else if priority == "low" then 2 else 3
  }

  /** The second component of the sort key: 0 for the two fixed labels, minus the leading number
      of a label that starts with one, and 0 otherwise. A blank label, which no rule produces,
      also gives 0. */
  function AgeKey(age: string): int
  {
    if age == "Multiple submissions" || age == "Today" then 0
    else
      var words := Words(Py, age);
      if words == [] then 0
      else if words[0] != [] && AllDigits(words[0]) then 0 - DigitsValue(words[0]) as int
      else 0
  }

  function AttentionKey(item: AttentionItem): Key
  {
    Key(Rank(item.priority), AgeKey(item.age))
  }

  /** `message[:50] + "..."` when the message is longer than 50 characters. */
  function Preview(message: string): (r: string)
    ensures |r| <= 53
    ensures |message| <= 50 ==> r == message
    ensures |message| > 50 ==> |r| == 53 && r[..50] == message[..50] && r[50..] == "..."
  {
    if |message| > 50 then message[..50] + "..." else message
  }

  /** `date.strftime('%m/%d/%Y')`. */
  function FormatMdy(d: Date): string
  {
    Pad2(d.month) + "/" + Pad2(d.day) + "/" + IntToString(d.year)
  }

  function Pad2(n: int): string
  {
    if 0 <= n < 10 then "0" + NatToString(n) else IntToString(n)
  }

  /** The caption of a status or subject: `s.replace('_', ' ').title()`. */
  function Caption(s: string): string
  {
    TitleCase(ReplaceChar(s, '_', ' '))
  }

  predicate IsActiveQuote(q: QuoteRequest) { q.status == "pending" || q.status == "in_review" }
  predicate IsUnread(m: ContactMessage) { m.status == "new" || m.status == "read" }

  // ----- Rule 1: overdue quotes -----

  function OverdueQuoteItem(users: seq<User>, now: int, q: QuoteRequest): Option<AttentionItem>
  {
    if IsActiveQuote(q) && q.createdAt < now - TwoDays then
      match CustomerName(users, q.userId)
      case None => None
      case Some(name) =>
        var days := AgeDays(now, q.createdAt);
        Some(AttentionItem("quote", Some(q.id), Some(q.userId), name, "Quote Request - " + q.category,
                           "Overdue", "Status: " + Caption(q.status), FormatAge(days),
                           if days > 5 then "high" else "medium"))
    else None
  }

  function OverdueQuoteRule(users: seq<User>, now: int): QuoteRequest -> Option<AttentionItem>
  {
    (q: QuoteRequest) => OverdueQuoteItem(users, now, q)
  }

  // ----- Rule 2: overdue claims -----

  function OverdueClaimItem(users: seq<User>, now: int, c: Claim): Option<AttentionItem>
  {
    if c.status == "submitted" && c.createdAt < now - TwoDays then
      match CustomerName(users, c.userId)
      case None => None
      case Some(name) =>
        var days := AgeDays(now, c.createdAt);
        Some(AttentionItem("claim", Some(c.id), Some(c.userId), name, "Claim - " + c.category,
                           "Overdue", "Incident: " + FormatMdy(c.incidentDate), FormatAge(days),
                           if days > 5 then "high" else "medium"))
    else None
  }

  function OverdueClaimRule(users: seq<User>, now: int): Claim -> Option<AttentionItem>
  {
    (c: Claim) => OverdueClaimItem(users, now, c)
  }

  // ----- Rule 3: new or read messages, any age -----

  function UnreadMessageItem(now: int, m: ContactMessage): Option<AttentionItem>
  {
    if IsUnread(m) then
      Some(AttentionItem("message", Some(m.id), m.userId, m.fullName, "Message - " + Caption(m.subject),
                         if m.status == "new" then "New Message" else "Unread Message",
                         Preview(m.message), FormatAge(AgeDays(now, m.createdAt)),
                         if m.status == "new" then "high" else "medium"))
    else None
  }

  function UnreadMessageRule(now: int): ContactMessage -> Option<AttentionItem>
  {
    (m: ContactMessage) => UnreadMessageItem(now, m)
  }

  // ----- Rules 4 and 5: several open submissions by one user -----

  function ActiveQuoteOf(userId: int): QuoteRequest -> bool
  {
    (q: QuoteRequest) => q.userId == userId && IsActiveQuote(q)
  }

  function SubmittedClaimOf(userId: int): Claim -> bool
  {
    (c: Claim) => c.userId == userId && c.status == "submitted"
  }

  function MultipleQuotesItem(quotes: seq<QuoteRequest>, u: User): Option<AttentionItem>
  {
    var n := Count(quotes, ActiveQuoteOf(u.id));
    if n >= 2 then
      Some(AttentionItem("multiple_quotes", None, Some(u.id), u.fullName,
                         NatToString(n) + " Pending Quotes", "Multiple Submissions",
                         "User has " + NatToString(n) + " active quote requests",
                         "Multiple submissions", "medium"))
    else None
  }

  function MultipleQuotesRule(quotes: seq<QuoteRequest>): User -> Option<AttentionItem>
  {
    (u: User) => MultipleQuotesItem(quotes, u)
  }

  function MultipleClaimsItem(claims: seq<Claim>, u: User): Option<AttentionItem>
  {
    var n := Count(claims, SubmittedClaimOf(u.id));
    if n >= 2 then
      Some(AttentionItem("multiple_claims", None, Some(u.id), u.fullName,
                         NatToString(n) + " Submitted Claims", "Multiple Submissions",
                         "User has " + NatToString(n) + " active claims",
                         "Multiple submissions", "medium"))
    else None
  }

  function MultipleClaimsRule(claims: seq<Claim>): User -> Option<AttentionItem>
  {
    (u: User) => MultipleClaimsItem(claims, u)
  }

  // ----- Rule 6: appointments today -----

  function QuoteAppointmentItem(users: seq<User>, today: Date, q: QuoteRequest): Option<AttentionItem>
  {
    if q.appointmentDate == Some(today) then
      match CustomerName(users, q.userId)
      case None => None
      case Some(name) =>
        Some(AttentionItem("appointment", Some(q.id), Some(q.userId), name,
                           "Appointment Today - " + q.category, "Appointment",
                           "Quote request appointment", "Today", "high"))
    else None
  }

  function QuoteAppointmentRule(users: seq<User>, today: Date): QuoteRequest -> Option<AttentionItem>
  {
    (q: QuoteRequest) => QuoteAppointmentItem(users, today, q)
  }

  function ClaimAppointmentItem(users: seq<User>, today: Date, c: Claim): Option<AttentionItem>
  {
    if c.appointmentRequested == Some(today) then
      match CustomerName(users, c.userId)
      case None => None
      case Some(name) =>
        Some(AttentionItem("appointment", Some(c.id), Some(c.userId), name,
                           "Appointment Today - " + c.category, "Appointment",
                           "Claim appointment", "Today", "high"))
    else None
  }

  function ClaimAppointmentRule(users: seq<User>, today: Date): Claim -> Option<AttentionItem>
  {
    (c: Claim) => ClaimAppointmentItem(users, today, c)
  }

  function MessageAppointmentItem(today: Date, m: ContactMessage): Option<AttentionItem>
  {
    if m.appointmentDate == Some(today) then
      Some(AttentionItem("appointment", Some(m.id), m.userId, m.fullName,
                         "Appointment Today - " + Caption(m.subject), "Appointment",
                         "Contact message appointment", "Today", "high"))
    else None
  }

  function MessageAppointmentRule(today: Date): ContactMessage -> Option<AttentionItem>
  {
    (m: ContactMessage) => MessageAppointmentItem(today, m)
  }

  /** Everything the rules emit, in emission order, before the sort. */
  function Emitted(users: seq<User>, quotes: seq<QuoteRequest>, claims: seq<Claim>,
                   messages: seq<ContactMessage>, now: int): seq<AttentionItem>
  {
    var today := DateOf(now);
    FilterMap(quotes, OverdueQuoteRule(users, now))
    + FilterMap(claims, OverdueClaimRule(users, now))
    + FilterMap(messages, UnreadMessageRule(now))
    + FilterMap(users, MultipleQuotesRule(quotes))
    + FilterMap(users, MultipleClaimsRule(claims))
    + FilterMap(quotes, QuoteAppointmentRule(users, today))
    + FilterMap(claims, ClaimAppointmentRule(users, today))
    + FilterMap(messages, MessageAppointmentRule(today))
  }

  /** `get_attention_items`: the emitted items, sorted by (rank, age key) with ties left in
      emission order. */
  method GetAttentionItems(users: seq<User>, quotes: seq<QuoteRequest>, claims: seq<Claim>,
                           messages: seq<ContactMessage>, now: int)
    returns (items: seq<AttentionItem>)
    ensures items == SortBy(Emitted(users, quotes, claims, messages, now), AttentionKey)
    ensures multiset(items) == multiset(Emitted(users, quotes, claims, messages, now))
    ensures SortedBy(items, AttentionKey)
    ensures forall k :: Filter(items, KeyIs(AttentionKey, k))
                        == Filter(Emitted(users, quotes, claims, messages, now), KeyIs(AttentionKey, k))
  {
    var emitted := CollectItems(users, quotes, claims, messages, now);
    items := SortBy(emitted, AttentionKey);
    forall k ensures Filter(items, KeyIs(AttentionKey, k)) == Filter(emitted, KeyIs(AttentionKey, k)) {
      SortStable(emitted, AttentionKey, k);
    }
  }

  /** The eight rule loops of `get_attention_items`, in the order they run. */
  method CollectItems(users: seq<User>, quotes: seq<QuoteRequest>, claims: seq<Claim>,
                      messages: seq<ContactMessage>, now: int)
    returns (items: seq<AttentionItem>)
    ensures items == Emitted(users, quotes, claims, messages, now)
  {
    var today := DateOf(now);
    items := AppendSome([], quotes, OverdueQuoteRule(users, now));
    assert items == FilterMap(quotes, OverdueQuoteRule(users, now));
    items := AppendSome(items, claims, OverdueClaimRule(users, now));
    items := AppendSome(items, messages, UnreadMessageRule(now));
    items := AppendSome(items, users, MultipleQuotesRule(quotes));
    items := AppendSome(items, users, MultipleClaimsRule(claims));
    items := AppendSome(items, quotes, QuoteAppointmentRule(users, today));
    items := AppendSome(items, claims, ClaimAppointmentRule(users, today));
    items := AppendSome(items, messages, MessageAppointmentRule(today));
  }

  // ----- Properties -----

  lemma NatToStringNoSpace(n: nat)
    ensures !HasSpace(Py, NatToString(n)) && !HasSpace(Py, "-" + NatToString(n))
  {
    var s := NatToString(n);
    assert forall i :: 0 <= i < |s| ==> IsDigit(s[i]);
    assert forall i :: 1 <= i < |"-" + s| ==> ("-" + s)[i] == s[i - 1];
  }

  /** The age label `_format_age` produces sorts by its day count: n days old gives the key -n,
      "Today" and every negative age give 0. */
  lemma AgeKeyOfFormatAge(days: int)
    ensures AgeKey(FormatAge(days)) == if days > 0 then -days else 0
  {
    if days == 1 {
      AgeKeyOneDay(FormatAge(days));
    } else if days >= 2 {
      AgeKeyManyDays(days);
    } else if days < 0 {
      AgeKeyNegative(days);
    }
  }

  lemma AgeKeyOneDay(age: string)
    requires age == "1 day old"
    ensures AgeKey(age) == -1
  {
    var w, rest := "1", " day old";
    assert age == w + rest;
    AgeKeyLeadingOne(w, rest);
  }

  lemma AgeKeyLeadingOne(w: string, rest: string)
    requires w == "1" && rest == " day old"
    ensures AgeKey(w + rest) == -1
  {
    WordsPrefix(Py, w, rest);
    assert AllDigits(w) && DigitsValue(w) == 1;
  }

  lemma AgeKeyManyDays(days: nat)
    requires days >= 2
    ensures AgeKey(NatToString(days) + " days old") == -(days as int)
  {
    var w := NatToString(days);
    NatToStringNoSpace(days);
    WordsPrefix(Py, w, " days old");
    DigitsValueOfNatToString(days);
    var age := w + " days old";
    assert |age| > 9;
    assert Words(Py, age)[0] == w;
  }

  lemma AgeKeyNegative(days: int)
    requires days < 0
    ensures AgeKey("-" + NatToString(-days) + " days old") == 0
  {
    var w := "-" + NatToString(-days);
    NatToStringNoSpace(-days);
    WordsPrefix(Py, w, " days old");
    var age := w + " days old";
    assert |age| > 10;
    assert Words(Py, age)[0] == w;
    assert !IsDigit(w[0]);
  }

  /** Overdue rule: a quote is reported exactly when it is pending or in review, was created
      strictly more than two days before `now`, and its owner exists; the item is "high" exactly
      when it is more than five whole days old, and its age label is "N days old" with N >= 2. */
  lemma OverdueQuoteRuleSpec(users: seq<User>, now: int, q: QuoteRequest)
    ensures OverdueQuoteItem(users, now, q).Some? <==>
      (q.status in {"pending", "in_review"} && q.createdAt < now - 2 * 86400
       && exists i :: 0 <= i < |users| && users[i].id == q.userId)
    ensures OverdueQuoteItem(users, now, q).Some? ==>
      var item := OverdueQuoteItem(users, now, q).value;
      var days := (now - q.createdAt) / 86400;
      days >= 2 && item.age == NatToString(days) + " days old"
      && (item.priority == "high" <==> days > 5) && (item.priority == "medium" <==> days <= 5)
      && item.id == Some(q.id) && item.category == "Overdue"
  {
    if q.createdAt < now - TwoDays {
      OverdueAge(now, q.createdAt);
    }
  }

  /** The same rule for claims: submitted, created more than two days ago, owner exists. */
  lemma OverdueClaimRuleSpec(users: seq<User>, now: int, c: Claim)
    ensures OverdueClaimItem(users, now, c).Some? <==>
      (c.status == "submitted" && c.createdAt < now - 2 * 86400
       && exists i :: 0 <= i < |users| && users[i].id == c.userId)
    ensures OverdueClaimItem(users, now, c).Some? ==>
      var item := OverdueClaimItem(users, now, c).value;
      var days := (now - c.createdAt) / 86400;
      days >= 2 && item.age == NatToString(days) + " days old"
      && (item.priority == "high" <==> days > 5) && (item.priority == "medium" <==> days <= 5)
      && item.id == Some(c.id) && item.category == "Overdue"
  {
    if c.createdAt < now - TwoDays {
      OverdueAge(now, c.createdAt);
      if OverdueClaimItem(users, now, c).Some? {
        OverdueClaimItemShape(users, now, c);
      }
    }
  }

  lemma OverdueClaimItemShape(users: seq<User>, now: int, c: Claim)
    requires OverdueClaimItem(users, now, c).Some?
    ensures var item := OverdueClaimItem(users, now, c).value;
      var days := AgeDays(now, c.createdAt);
      item.age == FormatAge(days) && (item.priority == "high" <==> days > 5)
      && (item.priority == "medium" <==> days <= 5) && item.id == Some(c.id) && item.category == "Overdue"
  {
  }

  /** An item created more than two days ago is at least two days old, and its age label spells
      the day count out. */
  lemma OverdueAge(now: int, createdAt: int)
    requires createdAt < now - TwoDays
    ensures AgeDays(now, createdAt) >= 2
    ensures FormatAge(AgeDays(now, createdAt)) == NatToString(AgeDays(now, createdAt)) + " days old"
  {
    var days := AgeDays(now, createdAt);
    assert now - createdAt > 2 * SecondsPerDay;
    assert days >= 2;
  }

  /** Overdue items sort by priority first and then oldest first. */
  lemma OverdueQuoteSortKey(users: seq<User>, now: int, q: QuoteRequest)
    requires OverdueQuoteItem(users, now, q).Some?
    ensures AttentionKey(OverdueQuoteItem(users, now, q).value)
            == Key(if AgeDays(now, q.createdAt) > 5 then 0 else 1, -AgeDays(now, q.createdAt))
  {
    AgeKeyOfFormatAge(AgeDays(now, q.createdAt));
  }

  lemma OverdueClaimSortKey(users: seq<User>, now: int, c: Claim)
    requires OverdueClaimItem(users, now, c).Some?
    ensures AttentionKey(OverdueClaimItem(users, now, c).value)
            == Key(if AgeDays(now, c.createdAt) > 5 then 0 else 1, -AgeDays(now, c.createdAt))
  {
    AgeKeyOfFormatAge(AgeDays(now, c.createdAt));
  }

  lemma FilterExt<T>(s: seq<T>, p: T -> bool, q: T -> bool)
    requires forall x :: p(x) == q(x)
    ensures Filter(s, p) == Filter(s, q)
  {
    if s != [] {
      FilterExt(s[..|s| - 1], p, q);
    }
  }

  /** Every new or read message yields exactly one item; it is "high" exactly when the message is
      new, and its detail is the message cut to 50 characters plus "..." (at most 53). */
  lemma UnreadMessagesSpec(now: int, messages: seq<ContactMessage>)
    ensures |FilterMap(messages, UnreadMessageRule(now))|
            == Count(messages, (m: ContactMessage) => m.status == "new" || m.status == "read")
    ensures forall m :: m in messages && IsUnread(m) ==>
      var item := UnreadMessageItem(now, m).value;
      item in FilterMap(messages, UnreadMessageRule(now))
      && (item.priority == "high" <==> m.status == "new")
      && item.detail == Preview(m.message) && |item.detail| <= 53
  {
    FilterMapLength(messages, UnreadMessageRule(now));
    FilterExt(messages, (x: ContactMessage) => UnreadMessageRule(now)(x).Some?,
              (m: ContactMessage) => m.status == "new" || m.status == "read");
    forall m | m in messages && IsUnread(m)
      ensures UnreadMessageItem(now, m).value in FilterMap(messages, UnreadMessageRule(now))
    {
      var i :| 0 <= i < |messages| && messages[i] == m;
      FilterMapIn(messages, UnreadMessageRule(now), UnreadMessageItem(now, m).value);
    }
  }

  /** Grouping rule: an account is reported exactly when it has at least two pending or in-review
      quotes; the item has no id, medium priority, and the count in its title. There is one such
      item per qualifying account. */
  lemma MultipleQuotesSpec(quotes: seq<QuoteRequest>, users: seq<User>, u: User)
    ensures MultipleQuotesItem(quotes, u).Some? <==> Count(quotes, ActiveQuoteOf(u.id)) >= 2
    ensures MultipleQuotesItem(quotes, u).Some? ==>
      var item := MultipleQuotesItem(quotes, u).value;
      item.id == None && item.userId == Some(u.id) && item.priority == "medium"
      && item.title == NatToString(Count(quotes, ActiveQuoteOf(u.id))) + " Pending Quotes"
    ensures |FilterMap(users, MultipleQuotesRule(quotes))|
            == Count(users, (v: User) => Count(quotes, ActiveQuoteOf(v.id)) >= 2)
  {
    FilterMapLength(users, MultipleQuotesRule(quotes));
    FilterExt(users, (x: User) => MultipleQuotesRule(quotes)(x).Some?,
              (v: User) => Count(quotes, ActiveQuoteOf(v.id)) >= 2);
  }

  /** The same grouping for submitted claims. */
  lemma MultipleClaimsSpec(claims: seq<Claim>, users: seq<User>, u: User)
    ensures MultipleClaimsItem(claims, u).Some? <==> Count(claims, SubmittedClaimOf(u.id)) >= 2
    ensures MultipleClaimsItem(claims, u).Some? ==>
      var item := MultipleClaimsItem(claims, u).value;
      item.id == None && item.userId == Some(u.id) && item.priority == "medium"
      && item.title == NatToString(Count(claims, SubmittedClaimOf(u.id))) + " Submitted Claims"
    ensures |FilterMap(users, MultipleClaimsRule(claims))|
            == Count(users, (v: User) => Count(claims, SubmittedClaimOf(v.id)) >= 2)
  {
    FilterMapLength(users, MultipleClaimsRule(claims));
    FilterExt(users, (x: User) => MultipleClaimsRule(claims)(x).Some?,
              (v: User) => Count(claims, SubmittedClaimOf(v.id)) >= 2);
  }
}
