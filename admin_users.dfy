/** The account views of the admin service: the parameter checks and filters of `get_all_users`,
    the last-activity and last-login aggregates (`_get_last_logins`), and `get_user_detail`. */
module AdminUsers {
  import opened Wrappers
  import opened Seqs
  import opened Text
  import opened Records
  import opened AdminActivity

  /** The query parameters of `get_all_users` that select rows. */
  datatype UserListQuery = UserListQuery(
    status: Option<string>, search: Option<string>, recentlyContacted: Option<string>,
    sortBy: string, sortOrder: string)

  /** The filters the parameters amount to once they are accepted. */
  datatype UserFilter = UserFilter(active: Option<bool>, search: Option<string>, cutoff: Option<int>)

  /** The window of a `recently_contacted` value, in days. */
  function RecentlyContactedDays(v: string): Option<nat>
  {
    if v == "2weeks" then Some(14)
    else if v == "1month" then Some(30)
    else if v == "3months" then Some(90)
    else if v == "6months" then Some(180)
    else if v == "1year" then Some(365)
    else None
  }

  /** The checks of `get_all_users`, in the order they run, and the filters they produce. */
  function ParseUserListQuery(q: UserListQuery, now: int): (r: Outcome<UserFilter>)
  {
    if q.sortBy !in ["activity", "name", "status"] then
      Raise(ValueError("Invalid sort_by. Must be one of: activity, name, status"))
    else if q.sortOrder !in ["asc", "desc"] then
      Raise(ValueError("Invalid sort_order. Must be one of: asc, desc"))
    else if Truthy(q.status) && q.status.value != "active" && q.status.value != "inactive" then
      Raise(ValueError("Invalid status. Must be 'active' or 'inactive'"))
    else if Truthy(q.recentlyContacted) && RecentlyContactedDays(q.recentlyContacted.value).None? then
      Raise(ValueError("Invalid recently_contacted value"))
    else
      Ok(UserFilter(
        if Truthy(q.status) then Some(q.status.value == "active") else None,
        if Truthy(q.search) then q.search else None,
        if Truthy(q.recentlyContacted)
        then Some(now - RecentlyContactedDays(q.recentlyContacted.value).value * SecondsPerDay)
        else None))
  }

  /** Every rejection is a `ValueError`; the query is accepted exactly when each parameter is
      recognised (a falsy status, search or window means no filter), and a sort parameter is
      reported before the filters. */
  lemma ParseUserListQuerySpec(q: UserListQuery, now: int)
    ensures ParseUserListQuery(q, now).Ok? <==>
      q.sortBy in {"activity", "name", "status"} && q.sortOrder in {"asc", "desc"}
      && (!Truthy(q.status) || q.status.value in {"active", "inactive"})
      && (!Truthy(q.recentlyContacted)
          || q.recentlyContacted.value in {"2weeks", "1month", "3months", "6months", "1year"})
    ensures ParseUserListQuery(q, now).Raise? ==> ParseUserListQuery(q, now).exc.typeName == "ValueError"
    ensures q.sortBy !in {"activity", "name", "status"} ==>
      ParseUserListQuery(q, now) == Raise(ValueError("Invalid sort_by. Must be one of: activity, name, status"))
    ensures ParseUserListQuery(q, now).Ok? && q.recentlyContacted == Some("2weeks") ==>
      ParseUserListQuery(q, now).value.cutoff == Some(now - 14 * 86400)
    ensures ParseUserListQuery(q, now).Ok? && q.recentlyContacted == Some("1month") ==>
      ParseUserListQuery(q, now).value.cutoff == Some(now - 30 * 86400)
    ensures ParseUserListQuery(q, now).Ok? && q.recentlyContacted == Some("3months") ==>
      ParseUserListQuery(q, now).value.cutoff == Some(now - 90 * 86400)
    ensures ParseUserListQuery(q, now).Ok? && q.recentlyContacted == Some("6months") ==>
      ParseUserListQuery(q, now).value.cutoff == Some(now - 180 * 86400)
    ensures ParseUserListQuery(q, now).Ok? && q.recentlyContacted == Some("1year") ==>
      ParseUserListQuery(q, now).value.cutoff == Some(now - 365 * 86400)
    ensures ParseUserListQuery(q, now).Ok? && !Truthy(q.recentlyContacted) ==>
      ParseUserListQuery(q, now).value.cutoff == None
  {
  }

  function QuoteTime(q: QuoteRequest): int { q.createdAt }
  function ClaimTime(c: Claim): int { c.createdAt }
  function MessageTime(m: ContactMessage): int { m.createdAt }
  function QuoteOf(userId: int): QuoteRequest -> bool { (q: QuoteRequest) => q.userId == userId }
  function ClaimOf(userId: int): Claim -> bool { (c: Claim) => c.userId == userId }
  function MessageOf(userId: int): ContactMessage -> bool { (m: ContactMessage) => m.userId == Some(userId) }

  /** `COALESCE(x, '1970-01-01')`. */
  function OrEpoch(t: Option<int>): int { if t.Some? then t.value else 0 }

  function Max(a: int, b: int): int { if a >= b then a else b }

  /** `GREATEST` of the three per-kind `MAX(created_at)`, a kind without rows counting as the
      epoch. */
  function LastActivity(quotes: seq<QuoteRequest>, claims: seq<Claim>, messages: seq<ContactMessage>,
                        userId: int): int
  {
    Max(Max(OrEpoch(Latest(quotes, QuoteOf(userId), QuoteTime)),
            OrEpoch(Latest(claims, ClaimOf(userId), ClaimTime))),
        OrEpoch(Latest(messages, MessageOf(userId), MessageTime)))
  }

  /** The `HAVING last_activity >= cutoff` test holds exactly when some quote, claim or message of
      the account is at least as recent as the cutoff, or a kind the account has no rows of stands
      in for the epoch and the epoch is not before the cutoff. */
  lemma LastActivityCutoff(quotes: seq<QuoteRequest>, claims: seq<Claim>, messages: seq<ContactMessage>,
                           userId: int, cutoff: int)
    ensures LastActivity(quotes, claims, messages, userId) >= cutoff <==>
      (exists i :: 0 <= i < |quotes| && quotes[i].userId == userId && quotes[i].createdAt >= cutoff)
      || (exists i :: 0 <= i < |claims| && claims[i].userId == userId && claims[i].createdAt >= cutoff)
      || (exists i :: 0 <= i < |messages| && messages[i].userId == Some(userId) && messages[i].createdAt >= cutoff)
      || (0 >= cutoff
          && ((forall i :: 0 <= i < |quotes| ==> quotes[i].userId != userId)
              || (forall i :: 0 <= i < |claims| ==> claims[i].userId != userId)
              || (forall i :: 0 <= i < |messages| ==> messages[i].userId != Some(userId))))
  {
    var lq := Latest(quotes, QuoteOf(userId), QuoteTime);
    var lc := Latest(claims, ClaimOf(userId), ClaimTime);
    var lm := Latest(messages, MessageOf(userId), MessageTime);
    assert forall i :: 0 <= i < |quotes| ==> (QuoteOf(userId)(quotes[i]) <==> quotes[i].userId == userId);
    assert forall i :: 0 <= i < |claims| ==> (ClaimOf(userId)(claims[i]) <==> claims[i].userId == userId);
    assert forall i :: 0 <= i < |messages| ==> (MessageOf(userId)(messages[i]) <==> messages[i].userId == Some(userId));
  }

  function LoginOf(userId: int): AuditEntry -> bool
  {
    (e: AuditEntry) => e.userId == Some(userId) && e.action == "LOGIN"
  }

  function EntryTime(e: AuditEntry): int { e.createdAt }

  /** `_get_last_logins(...).get(user_id)`: the latest LOGIN entry of the account, None if it
      never logged in. */
  function LastLogin(auditLogs: seq<AuditEntry>, userId: int): (r: Option<int>)
    ensures r.None? <==> forall i :: 0 <= i < |auditLogs| ==> !(auditLogs[i].userId == Some(userId) && auditLogs[i].action == "LOGIN")
    ensures r.Some? ==> exists i :: 0 <= i < |auditLogs| && auditLogs[i].userId == Some(userId)
                                    && auditLogs[i].action == "LOGIN" && auditLogs[i].createdAt == r.value
    ensures r.Some? ==> forall i :: (0 <= i < |auditLogs| && auditLogs[i].userId == Some(userId)
                                     && auditLogs[i].action == "LOGIN") ==> auditLogs[i].createdAt <= r.value
  {
    assert forall i :: 0 <= i < |auditLogs| ==>
      (LoginOf(userId)(auditLogs[i]) <==> auditLogs[i].userId == Some(userId) && auditLogs[i].action == "LOGIN");
    Latest(auditLogs, LoginOf(userId), EntryTime)
  }

  /** The row filters of `get_all_users` once its parameters are accepted. */
  predicate MatchesFilter(f: UserFilter, u: User, quotes: seq<QuoteRequest>, claims: seq<Claim>,
                          messages: seq<ContactMessage>)
  {
    (f.active.None? || u.isActive == f.active.value)
    && (f.search.None?
        || ContainsIgnoringCase(u.username, f.search.value)
        || ContainsIgnoringCase(u.email, f.search.value)
        || ContainsIgnoringCase(u.fullName, f.search.value))
    && (f.cutoff.None? || LastActivity(quotes, claims, messages, u.id) >= f.cutoff.value)
  }

  /** An `AdminUserListItem`. */
  datatype UserListItem = UserListItem(
    user: User, lastLoginAt: Option<int>, quotesCount: nat, claimsCount: nat, messagesCount: nat)

  function Matching(f: UserFilter, quotes: seq<QuoteRequest>, claims: seq<Claim>,
                    messages: seq<ContactMessage>): User -> bool
  {
    (u: User) => MatchesFilter(f, u, quotes, claims, messages)
  }

  function ListItem(quotes: seq<QuoteRequest>, claims: seq<Claim>, messages: seq<ContactMessage>,
                    auditLogs: seq<AuditEntry>): User -> UserListItem
  {
    (u: User) => UserListItem(u, LastLogin(auditLogs, u.id), Count(quotes, QuoteOf(u.id)),
                              Count(claims, ClaimOf(u.id)), Count(messages, MessageOf(u.id)))
  }

  /** The rows `get_all_users` selects before ordering and paging; `total` is their number. */
  function MatchingUsers(users: seq<User>, quotes: seq<QuoteRequest>, claims: seq<Claim>,
                         messages: seq<ContactMessage>, auditLogs: seq<AuditEntry>,
                         q: UserListQuery, now: int): Outcome<seq<UserListItem>>
  {
    match ParseUserListQuery(q, now)
    case Raise(e) => Raise(e)
    case Ok(f) => Ok(Map(Filter(users, Matching(f, quotes, claims, messages)), ListItem(quotes, claims, messages, auditLogs)))
  }

  /** An accepted query lists every account that passes all filters and only those, each with
      its own counts and last login. */
  lemma MatchingUsersSpec(users: seq<User>, quotes: seq<QuoteRequest>, claims: seq<Claim>,
                          messages: seq<ContactMessage>, auditLogs: seq<AuditEntry>,
                          q: UserListQuery, now: int, u: User)
    requires ParseUserListQuery(q, now).Ok?
    ensures var f := ParseUserListQuery(q, now).value;
      var items := MatchingUsers(users, quotes, claims, messages, auditLogs, q, now).value;
      ((u in users && MatchesFilter(f, u, quotes, claims, messages))
       <==> exists i :: 0 <= i < |items| && items[i].user == u)
      && forall i :: 0 <= i < |items| ==>
           items[i].lastLoginAt == LastLogin(auditLogs, items[i].user.id)
           && items[i].quotesCount == Count(quotes, QuoteOf(items[i].user.id))
           && items[i].claimsCount == Count(claims, ClaimOf(items[i].user.id))
           && items[i].messagesCount == Count(messages, MessageOf(items[i].user.id))
  {
    var f := ParseUserListQuery(q, now).value;
    var rows := Filter(users, Matching(f, quotes, claims, messages));
    FilterIn(users, Matching(f, quotes, claims, messages), u);
    var items := Map(rows, ListItem(quotes, claims, messages, auditLogs));
    if u in rows {
      var i :| 0 <= i < |rows| && rows[i] == u;
      assert items[i].user == u;
    }
  }

  /** An `AdminUserDetail`. */
  datatype UserDetail = UserDetail(
    user: User, lastLoginAt: Option<int>, quotesCount: nat, claimsCount: nat, messagesCount: nat,
    activity: UserActivitySummary)

  /** `get_user_detail`: None for an unknown id; otherwise the account, its counts, its last login
      and its activity over `date_range`. */
  method GetUserDetail(users: seq<User>, quotes: seq<QuoteRequest>, claims: seq<Claim>,
                       messages: seq<ContactMessage>, auditLogs: seq<AuditEntry>,
                       userId: int, dateRange: Option<string>, now: int)
    returns (r: Option<UserDetail>)
    ensures r.None? <==> forall i :: 0 <= i < |users| ==> users[i].id != userId
    ensures r.Some? ==>
      r.value.user in users && r.value.user.id == userId
      && r.value.user == users[FirstIndex(users, UserIdIs(userId)).value]
      && r.value.lastLoginAt == LastLogin(auditLogs, userId)
      && r.value.quotesCount == Count(quotes, QuoteOf(userId))
      && r.value.claimsCount == Count(claims, ClaimOf(userId))
      && r.value.messagesCount == Count(messages, MessageOf(userId))
      && r.value.activity == UserActivity(quotes, claims, messages, userId, dateRange, now)
  {
    var found := FirstIndex(users, UserIdIs(userId));
    if found.None? {
      return None;
    }
    var user := users[found.value];
    var activity := GetUserActivity(quotes, claims, messages, userId, dateRange, now);
    r := Some(UserDetail(user, LastLogin(auditLogs, userId), Count(quotes, QuoteOf(userId)),
                         Count(claims, ClaimOf(userId)), Count(messages, MessageOf(userId)), activity));
  }
}
