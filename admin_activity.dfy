/** The activity feeds of the admin service: the dashboard's recent-activity summary
    (`_get_recent_activity_summary`), the detailed recent-activity list (`get_recent_activity`),
    and one account's activity with its date-range filter (`_get_user_activity`). */
module AdminActivity {
  import opened Wrappers
  import opened Seqs
  import opened Sorting
  import opened Records
  import opened Queries

  // ----- Recent activity across all accounts -----

  /** A row of the dashboard summary (`RecentActivityItemSummary`). */
  datatype ActivitySummary = ActivitySummary(kind: string, customer: string, action: string, date: int)

  /** A row of `get_recent_activity` (`RecentActivityItem`). */
  datatype RecentActivityItem = RecentActivityItem(
    id: int, kind: string, customerName: string, category: Option<string>,
    subject: Option<string>, status: string, createdAt: int)

  /** A pending quote is reported as "submitted"; every other status as itself. */
  function QuoteAction(status: string): string
  {
    if status == "pending" then "submitted" else status
  }

  function QuoteSummary(p: (QuoteRequest, string)): ActivitySummary
  {
    ActivitySummary("quote", p.1, QuoteAction(p.0.status), p.0.createdAt)
  }

  function ClaimSummary(p: (Claim, string)): ActivitySummary
  {
    ActivitySummary("claim", p.1, p.0.status, p.0.createdAt)
  }

  function MessageSummary(m: ContactMessage): ActivitySummary
  {
    ActivitySummary("message", m.fullName, m.status, m.createdAt)
  }

  function SummaryNewest(a: ActivitySummary): Key { Key(-a.date, 0) }

  /** The newest `limit` quotes that have an owner, newest first. */
  function RecentQuotes(users: seq<User>, quotes: seq<QuoteRequest>, limit: nat): seq<(QuoteRequest, string)>
  {
    Take(SortBy(QuotesWithOwner(users, quotes), JoinedQuoteNewest), limit)
  }

  function RecentClaims(users: seq<User>, claims: seq<Claim>, limit: nat): seq<(Claim, string)>
  {
    Take(SortBy(ClaimsWithOwner(users, claims), JoinedClaimNewest), limit)
  }

  /** Messages are not joined: guest messages take part too. */
  function RecentMessages(messages: seq<ContactMessage>, limit: nat): seq<ContactMessage>
  {
    Take(SortBy(messages, MessageNewest), limit)
  }

  /** The list before the final sort: quotes, then claims, then messages. */
  function SummaryCandidates(users: seq<User>, quotes: seq<QuoteRequest>, claims: seq<Claim>,
                             messages: seq<ContactMessage>, limit: nat): seq<ActivitySummary>
  {
    Map(RecentQuotes(users, quotes, limit), QuoteSummary)
    + Map(RecentClaims(users, claims, limit), ClaimSummary)
    + Map(RecentMessages(messages, limit), MessageSummary)
  }

  /** `_get_recent_activity_summary`: at most `limit` rows, newest first, drawn from the newest
      `limit` rows of each kind; no candidate that was cut off is newer than a kept row. */
  method GetRecentActivitySummary(users: seq<User>, quotes: seq<QuoteRequest>, claims: seq<Claim>,
                                  messages: seq<ContactMessage>, limit: nat)
    returns (r: seq<ActivitySummary>)
    ensures r == Take(SortBy(SummaryCandidates(users, quotes, claims, messages, limit), SummaryNewest), limit)
    ensures |r| <= limit && SortedBy(r, SummaryNewest)
    ensures multiset(r) <= multiset(SummaryCandidates(users, quotes, claims, messages, limit))
    ensures forall i, j :: 0 <= i < |r| && 0 <= j < |Drop(SortBy(SummaryCandidates(users, quotes, claims, messages, limit), SummaryNewest), limit)| ==>
      r[i].date >= Drop(SortBy(SummaryCandidates(users, quotes, claims, messages, limit), SummaryNewest), limit)[j].date
  {
    var activities := AppendEach([], RecentQuotes(users, quotes, limit), QuoteSummary);
    assert activities == Map(RecentQuotes(users, quotes, limit), QuoteSummary);
    activities := AppendEach(activities, RecentClaims(users, claims, limit), ClaimSummary);
    activities := AppendEach(activities, RecentMessages(messages, limit), MessageSummary);
    assert activities == SummaryCandidates(users, quotes, claims, messages, limit);
    NewestSummaries(activities, limit);
    r := Take(SortBy(activities, SummaryNewest), limit);
  }

  /** The first `limit` of candidates sorted newest first: no more than `limit`, sorted, drawn from
      the candidates, and no candidate cut off is newer than one kept. */
  lemma NewestSummaries(c: seq<ActivitySummary>, limit: nat)
    ensures var r := Take(SortBy(c, SummaryNewest), limit);
      |r| <= limit && SortedBy(r, SummaryNewest) && multiset(r) <= multiset(c)
      && forall i, j :: 0 <= i < |r| && 0 <= j < |Drop(SortBy(c, SummaryNewest), limit)| ==>
           r[i].date >= Drop(SortBy(c, SummaryNewest), limit)[j].date
  {
    TopN(c, SummaryNewest, limit);
  }

  function QuoteActivity(p: (QuoteRequest, string)): RecentActivityItem
  {
    RecentActivityItem(p.0.id, "quote", p.1, Some(p.0.category), None, p.0.status, p.0.createdAt)
  }

  function ClaimActivity(p: (Claim, string)): RecentActivityItem
  {
    RecentActivityItem(p.0.id, "claim", p.1, Some(p.0.category), None, p.0.status, p.0.createdAt)
  }

  function MessageActivity(m: ContactMessage): RecentActivityItem
  {
    RecentActivityItem(m.id, "message", m.fullName, None, Some(m.subject), m.status, m.createdAt)
  }

  function ActivityNewest(a: RecentActivityItem): Key { Key(-a.createdAt, 0) }

  function ActivityCandidates(users: seq<User>, quotes: seq<QuoteRequest>, claims: seq<Claim>,
                              messages: seq<ContactMessage>, limit: nat): seq<RecentActivityItem>
  {
    Map(RecentQuotes(users, quotes, limit), QuoteActivity)
    + Map(RecentClaims(users, claims, limit), ClaimActivity)
    + Map(RecentMessages(messages, limit), MessageActivity)
  }

  /** `get_recent_activity`: the same selection as the summary, with ids, categories and
      subjects. */
  method GetRecentActivity(users: seq<User>, quotes: seq<QuoteRequest>, claims: seq<Claim>,
                           messages: seq<ContactMessage>, limit: nat)
    returns (r: seq<RecentActivityItem>)
    ensures r == Take(SortBy(ActivityCandidates(users, quotes, claims, messages, limit), ActivityNewest), limit)
    ensures |r| <= limit && SortedBy(r, ActivityNewest)
    ensures multiset(r) <= multiset(ActivityCandidates(users, quotes, claims, messages, limit))
    ensures forall i, j :: 0 <= i < |r| && 0 <= j < |Drop(SortBy(ActivityCandidates(users, quotes, claims, messages, limit), ActivityNewest), limit)| ==>
      r[i].createdAt >= Drop(SortBy(ActivityCandidates(users, quotes, claims, messages, limit), ActivityNewest), limit)[j].createdAt
  {
    var activities := AppendEach([], RecentQuotes(users, quotes, limit), QuoteActivity);
    assert activities == Map(RecentQuotes(users, quotes, limit), QuoteActivity);
    activities := AppendEach(activities, RecentClaims(users, claims, limit), ClaimActivity);
    activities := AppendEach(activities, RecentMessages(messages, limit), MessageActivity);
    assert activities == ActivityCandidates(users, quotes, claims, messages, limit);
    NewestActivities(activities, limit);
    r := Take(SortBy(activities, ActivityNewest), limit);
  }

  /** The first `limit` of candidates sorted newest first: no more than `limit`, sorted, drawn from
      the candidates, and no candidate cut off is newer than one kept. */
  lemma NewestActivities(c: seq<RecentActivityItem>, limit: nat)
    ensures var r := Take(SortBy(c, ActivityNewest), limit);
      |r| <= limit && SortedBy(r, ActivityNewest) && multiset(r) <= multiset(c)
      && forall i, j :: 0 <= i < |r| && 0 <= j < |Drop(SortBy(c, ActivityNewest), limit)| ==>
           r[i].createdAt >= Drop(SortBy(c, ActivityNewest), limit)[j].createdAt
  {
    TopN(c, ActivityNewest, limit);
  }

  /** For a quote carrying one of the five quote statuses, the summary says "submitted" exactly
      when the quote is pending, and the raw status otherwise. */
  lemma QuoteActionSpec(status: string)
    ensures status in QuoteStatuses ==> (QuoteAction(status) == "submitted" <==> status == "pending")
    ensures status != "pending" ==> QuoteAction(status) == status
  {
  }

  /** Each kind contributes its own newest rows: at most `limit` of them, and none of its rows
      left out is newer than one taken. */
  lemma RecentQuotesAreNewest(users: seq<User>, quotes: seq<QuoteRequest>, limit: nat)
    ensures |RecentQuotes(users, quotes, limit)| == if limit <= |QuotesWithOwner(users, quotes)| then limit else |QuotesWithOwner(users, quotes)|
    ensures multiset(QuotesWithOwner(users, quotes)) == multiset(RecentQuotes(users, quotes, limit)) + multiset(Drop(SortBy(QuotesWithOwner(users, quotes), JoinedQuoteNewest), limit))
    ensures forall i, j :: 0 <= i < |RecentQuotes(users, quotes, limit)|
                           && 0 <= j < |Drop(SortBy(QuotesWithOwner(users, quotes), JoinedQuoteNewest), limit)| ==>
      RecentQuotes(users, quotes, limit)[i].0.createdAt
      >= Drop(SortBy(QuotesWithOwner(users, quotes), JoinedQuoteNewest), limit)[j].0.createdAt
  {
    TopN(QuotesWithOwner(users, quotes), JoinedQuoteNewest, limit);
  }

  lemma RecentClaimsAreNewest(users: seq<User>, claims: seq<Claim>, limit: nat)
    ensures |RecentClaims(users, claims, limit)| == if limit <= |ClaimsWithOwner(users, claims)| then limit else |ClaimsWithOwner(users, claims)|
    ensures multiset(ClaimsWithOwner(users, claims)) == multiset(RecentClaims(users, claims, limit)) + multiset(Drop(SortBy(ClaimsWithOwner(users, claims), JoinedClaimNewest), limit))
    ensures forall i, j :: 0 <= i < |RecentClaims(users, claims, limit)|
                           && 0 <= j < |Drop(SortBy(ClaimsWithOwner(users, claims), JoinedClaimNewest), limit)| ==>
      RecentClaims(users, claims, limit)[i].0.createdAt
      >= Drop(SortBy(ClaimsWithOwner(users, claims), JoinedClaimNewest), limit)[j].0.createdAt
  {
    TopN(ClaimsWithOwner(users, claims), JoinedClaimNewest, limit);
  }

  lemma RecentMessagesAreNewest(messages: seq<ContactMessage>, limit: nat)
    ensures |RecentMessages(messages, limit)| == if limit <= |messages| then limit else |messages|
    ensures multiset(messages) == multiset(RecentMessages(messages, limit)) + multiset(Drop(SortBy(messages, MessageNewest), limit))
    ensures forall i, j :: 0 <= i < |RecentMessages(messages, limit)|
                           && 0 <= j < |Drop(SortBy(messages, MessageNewest), limit)| ==>
      RecentMessages(messages, limit)[i].createdAt >= Drop(SortBy(messages, MessageNewest), limit)[j].createdAt
  {
    TopN(messages, MessageNewest, limit);
  }

  /** Whenever the three kinds together offer at least `limit` rows, exactly `limit` are
      reported. */
  lemma RecentActivityFull(users: seq<User>, quotes: seq<QuoteRequest>, claims: seq<Claim>,
                           messages: seq<ContactMessage>, limit: nat)
    requires |RecentQuotes(users, quotes, limit)| + |RecentClaims(users, claims, limit)|
             + |RecentMessages(messages, limit)| >= limit
    ensures |Take(SortBy(ActivityCandidates(users, quotes, claims, messages, limit), ActivityNewest), limit)| == limit
  {
  }

  // ----- One account's activity -----

  /** An entry of the per-kind lists and of the combined list of `_get_user_activity`. */
  datatype ActivityEntry = ActivityEntry(
    kind: string, id: int, category: Option<string>, subject: Option<string>, status: string, createdAt: int)

  datatype UserActivitySummary = UserActivitySummary(
    quotes: seq<ActivityEntry>, claims: seq<ActivityEntry>, messages: seq<ActivityEntry>,
    recentActivity: seq<ActivityEntry>)

  /** The lower bound on `created_at` that `date_range` selects; None for no filter, which is
      what a missing, empty, "all" or unrecognised value gives. */
  function DateFilter(dateRange: Option<string>, now: int): Option<int>
  {
    if dateRange.None? || dateRange.value == "" || dateRange.value == "all" then None
    else if dateRange.value == "30days" then Some(now - 30 * SecondsPerDay)
    else if dateRange.value == "6months" then Some(now - 180 * SecondsPerDay)
    else if dateRange.value == "ytd" then Some(Midnight(DateOf(now).year, 1, 1))
    else if dateRange.value == "last_year" then Some(Midnight(DateOf(now).year - 1, 1, 1))
    else None
  }

  predicate InWindow(since: Option<int>, t: int)
  {
    since.None? || t >= since.value
  }

  function QuoteOfUserSince(userId: int, since: Option<int>): QuoteRequest -> bool
  {
    (q: QuoteRequest) => q.userId == userId && InWindow(since, q.createdAt)
  }

  function ClaimOfUserSince(userId: int, since: Option<int>): Claim -> bool
  {
    (c: Claim) => c.userId == userId && InWindow(since, c.createdAt)
  }

  function MessageOfUserSince(userId: int, since: Option<int>): ContactMessage -> bool
  {
    (m: ContactMessage) => m.userId == Some(userId) && InWindow(since, m.createdAt)
  }

  function QuoteEntry(q: QuoteRequest): ActivityEntry
  {
    ActivityEntry("quote", q.id, Some(q.category), None, q.status, q.createdAt)
  }

  function ClaimEntry(c: Claim): ActivityEntry
  {
    ActivityEntry("claim", c.id, Some(c.category), None, c.status, c.createdAt)
  }

  function MessageEntry(m: ContactMessage): ActivityEntry
  {
    ActivityEntry("message", m.id, None, Some(m.subject), m.status, m.createdAt)
  }

  function EntryNewest(e: ActivityEntry): Key { Key(-e.createdAt, 0) }

  function UserQuoteRows(quotes: seq<QuoteRequest>, userId: int, since: Option<int>): seq<QuoteRequest>
  {
    SortBy(Filter(quotes, QuoteOfUserSince(userId, since)), QuoteNewest)
  }

  function UserClaimRows(claims: seq<Claim>, userId: int, since: Option<int>): seq<Claim>
  {
    SortBy(Filter(claims, ClaimOfUserSince(userId, since)), ClaimNewest)
  }

  function UserMessageRows(messages: seq<ContactMessage>, userId: int, since: Option<int>): seq<ContactMessage>
  {
    SortBy(Filter(messages, MessageOfUserSince(userId, since)), MessageNewest)
  }

  /** What `_get_user_activity` reports: the three per-kind lists and their concatenation
      re-sorted newest first. */
  function UserActivity(quotes: seq<QuoteRequest>, claims: seq<Claim>, messages: seq<ContactMessage>,
                        userId: int, dateRange: Option<string>, now: int): UserActivitySummary
  {
    var since := DateFilter(dateRange, now);
    var qs := Map(UserQuoteRows(quotes, userId, since), QuoteEntry);
    var cs := Map(UserClaimRows(claims, userId, since), ClaimEntry);
    var ms := Map(UserMessageRows(messages, userId, since), MessageEntry);
    UserActivitySummary(qs, cs, ms, SortBy(qs + cs + ms, EntryNewest))
  }

  /** `_get_user_activity`: each kind's rows of the account inside the window, newest first, and
      all of them together, newest first with ties kept in quote, claim, message order. */
  method GetUserActivity(quotes: seq<QuoteRequest>, claims: seq<Claim>, messages: seq<ContactMessage>,
                         userId: int, dateRange: Option<string>, now: int)
    returns (s: UserActivitySummary)
    ensures s == UserActivity(quotes, claims, messages, userId, dateRange, now)
    ensures SortedBy(s.recentActivity, EntryNewest)
    ensures multiset(s.recentActivity) == multiset(s.quotes + s.claims + s.messages)
    ensures forall k :: Filter(s.recentActivity, KeyIs(EntryNewest, k))
                        == Filter(s.quotes + s.claims + s.messages, KeyIs(EntryNewest, k))
  {
    var since := DateFilter(dateRange, now);
    var recentQuotes := UserQuoteRows(quotes, userId, since);
    var recentClaims := UserClaimRows(claims, userId, since);
    var recentMessages := UserMessageRows(messages, userId, since);
    var quotesList := Map(recentQuotes, QuoteEntry);
    var claimsList := Map(recentClaims, ClaimEntry);
    var messagesList := Map(recentMessages, MessageEntry);
    var all := AppendEach([], recentQuotes, QuoteEntry);
    assert all == quotesList;
    all := AppendEach(all, recentClaims, ClaimEntry);
    all := AppendEach(all, recentMessages, MessageEntry);
    assert all == quotesList + claimsList + messagesList;
    var sorted := SortBy(all, EntryNewest);
    forall k ensures Filter(sorted, KeyIs(EntryNewest, k)) == Filter(all, KeyIs(EntryNewest, k)) {
      SortStable(all, EntryNewest, k);
    }
    s := UserActivitySummary(quotesList, claimsList, messagesList, sorted);
  }

  /** The five recognised ranges, and no filter for anything else. */
  lemma DateFilterSpec(dateRange: Option<string>, now: int)
    ensures dateRange == Some("30days") ==> DateFilter(dateRange, now) == Some(now - 30 * 86400)
    ensures dateRange == Some("6months") ==> DateFilter(dateRange, now) == Some(now - 180 * 86400)
    ensures dateRange == Some("ytd") ==> DateFilter(dateRange, now) == Some(Midnight(DateOf(now).year, 1, 1))
    ensures dateRange == Some("last_year") ==> DateFilter(dateRange, now) == Some(Midnight(DateOf(now).year - 1, 1, 1))
    ensures DateFilter(dateRange, now).Some? <==>
      dateRange.Some? && dateRange.value in ["30days", "6months", "ytd", "last_year"]
  {
  }

  /** A quote is listed exactly when it belongs to the account and lies inside the window; the
      list runs newest first. The same holds for claims and messages. */
  lemma UserQuotesSpec(quotes: seq<QuoteRequest>, userId: int, since: Option<int>, q: QuoteRequest)
    ensures var rows := UserQuoteRows(quotes, userId, since);
      (q in rows <==> q in quotes && q.userId == userId && (since.None? || q.createdAt >= since.value))
      && forall i, j :: 0 <= i < j < |rows| ==> rows[i].createdAt >= rows[j].createdAt
  {
    var f := Filter(quotes, QuoteOfUserSince(userId, since));
    var rows := SortBy(f, QuoteNewest);
    FilterIn(quotes, QuoteOfUserSince(userId, since), q);
    assert q in rows <==> q in multiset(f);
    forall i, j | 0 <= i < j < |rows| ensures rows[i].createdAt >= rows[j].createdAt {
      assert KeyLe(QuoteNewest(rows[i]), QuoteNewest(rows[j]));
    }
  }

  lemma UserClaimsSpec(claims: seq<Claim>, userId: int, since: Option<int>, c: Claim)
    ensures var rows := UserClaimRows(claims, userId, since);
      (c in rows <==> c in claims && c.userId == userId && (since.None? || c.createdAt >= since.value))
      && forall i, j :: 0 <= i < j < |rows| ==> rows[i].createdAt >= rows[j].createdAt
  {
    var f := Filter(claims, ClaimOfUserSince(userId, since));
    var rows := SortBy(f, ClaimNewest);
    FilterIn(claims, ClaimOfUserSince(userId, since), c);
    assert c in rows <==> c in multiset(f);
    forall i, j | 0 <= i < j < |rows| ensures rows[i].createdAt >= rows[j].createdAt {
      assert KeyLe(ClaimNewest(rows[i]), ClaimNewest(rows[j]));
    }
  }

  lemma UserMessagesSpec(messages: seq<ContactMessage>, userId: int, since: Option<int>, m: ContactMessage)
    ensures var rows := UserMessageRows(messages, userId, since);
      (m in rows <==> m in messages && m.userId == Some(userId) && (since.None? || m.createdAt >= since.value))
      && forall i, j :: 0 <= i < j < |rows| ==> rows[i].createdAt >= rows[j].createdAt
  {
    var f := Filter(messages, MessageOfUserSince(userId, since));
    var rows := SortBy(f, MessageNewest);
    FilterIn(messages, MessageOfUserSince(userId, since), m);
    assert m in rows <==> m in multiset(f);
    forall i, j | 0 <= i < j < |rows| ensures rows[i].createdAt >= rows[j].createdAt {
      assert KeyLe(MessageNewest(rows[i]), MessageNewest(rows[j]));
    }
  }
}
