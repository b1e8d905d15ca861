/** `ContactService`: storing a contact message from a user or a guest, and the owner's list and
    detail views. */
module ContactService {
  import opened Wrappers
  import opened Seqs
  import opened Sorting
  import opened Records
  import opened Queries
  import opened Store
  import opened ContactSchemas

  /** The row `create_contact_message` inserts: the next key, the sender (None for a guest),
      the validated fields, status "new", and no answer yet. */
  function NewMessage(id: int, userId: Option<int>, c: ContactMessageCreate, now: int): ContactMessage
  {
    ContactMessage(id, userId, c.fullName, c.email, c.phone, c.subject, c.message, "new", None, None, None, now)
  }

  /** The audit call issued for a stored message: it tells guests from signed-in users. */
  function CreatedCall(userId: Option<int>, n: ContactMessage): AuditCall
  {
    AuditCall(userId, "CONTACT_MESSAGE_CREATED", Some("ContactMessage"), Some(n.id),
              Text((if userId.None? then "Guest" else "User") + " submitted contact message: " + n.subject),
              None)
  }

  /** The details of the call start with "Guest" exactly for a guest, and with "User" otherwise. */
  lemma CreatedCallSpec(userId: Option<int>, n: ContactMessage)
    ensures var t := CreatedCall(userId, n).details.text;
      (|t| >= 5 && t[..5] == "Guest") <==> userId.None?
    ensures userId.Some? ==> CreatedCall(userId, n).details.text[..4] == "User"
    ensures CreatedCall(userId, n).userId == userId
  {
    var t := CreatedCall(userId, n).details.text;
    if userId.Some? {
      assert t[0] == 'U';
    }
  }

  /** `create_contact_message`: no check of its own (the schema did that); one row appended
      and one audit call issued. */
  method CreateContactMessage(db: Database, c: ContactMessageCreate, userId: Option<int>, now: int)
    returns (m: ContactMessage)
    requires db.Valid()
    modifies db`messages, db`nextMessageId, db`issued
    ensures db.Valid()
    ensures m == NewMessage(old(db.nextMessageId), userId, c, now)
    ensures m.status == "new" && m.userId == userId && m.adminResponse.None?
    ensures db.messages == old(db.messages) + [m] && db.nextMessageId == old(db.nextMessageId) + 1
    ensures db.issued == old(db.issued) + [CreatedCall(userId, m)]
  {
    m := NewMessage(db.nextMessageId, userId, c, now);
    db.AddMessage(m);
    db.Issue(CreatedCall(userId, m));
  }

  function SentBy(userId: int): ContactMessage -> bool { (m: ContactMessage) => m.userId == Some(userId) }

  /** `get_user_messages`: the user's own messages, newest first, `skip` left out, at most
      `limit` (10 by default); guest messages belong to nobody. */
  function GetUserMessages(messages: seq<ContactMessage>, userId: int, skip: nat, limit: nat): (r: seq<ContactMessage>)
    ensures |r| <= limit
    ensures forall m :: m in r ==> m in messages && m.userId == Some(userId)
    ensures forall i, j :: 0 <= i < j < |r| ==> r[i].createdAt >= r[j].createdAt
  {
    var r := Page(messages, SentBy(userId), MessageNewest, skip, limit);
    assert forall i, j :: 0 <= i < j < |r| ==> KeyLe(MessageNewest(r[i]), MessageNewest(r[j]));
    r
  }

  /** The page is the slice `[skip, skip + limit)` of the user's messages sorted newest first: as
      long as that slice, together with the messages skipped before it and those left after it
      exactly the user's messages, no newer than any skipped one and no older than any left after. */
  lemma GetUserMessagesPage(messages: seq<ContactMessage>, userId: int, skip: nat, limit: nat)
    ensures var r := GetUserMessages(messages, userId, skip, limit);
      var n := Count(messages, SentBy(userId));
      |r| == (if n <= skip then 0 else if n - skip <= limit then n - skip else limit)
    ensures var r := GetUserMessages(messages, userId, skip, limit);
      var own := SortBy(Filter(messages, SentBy(userId)), MessageNewest);
      multiset(Filter(messages, SentBy(userId))) == multiset(Take(own, skip)) + multiset(r) + multiset(Drop(own, skip + limit))
      && AllBefore(Take(own, skip), r, MessageNewest) && AllBefore(r, Drop(own, skip + limit), MessageNewest)
  {
    PageSpec(messages, SentBy(userId), MessageNewest, skip, limit);
  }

  /** With no offset and a large enough limit, every message of the user is listed. */
  lemma GetUserMessagesComplete(messages: seq<ContactMessage>, userId: int, limit: nat)
    requires limit >= Count(messages, SentBy(userId))
    ensures forall m :: m in messages && m.userId == Some(userId) ==> m in GetUserMessages(messages, userId, 0, limit)
  {
    PageComplete(messages, SentBy(userId), MessageNewest, limit);
  }

  const NotYourMessage: string := "You do not have permission to view this message"

  /** `get_message_detail`: the first row with the key; None when there is none,
      `PermissionError` when its sender is not the requester. */
  function GetMessageDetail(messages: seq<ContactMessage>, messageId: int, userId: int): (r: Outcome<Option<ContactMessage>>)
    ensures r == Ok(None) <==> forall i :: 0 <= i < |messages| ==> messages[i].id != messageId
    ensures r.Raise? ==> r.exc == PermissionError(NotYourMessage)
    ensures r.Ok? && r.value.Some? ==>
      r.value.value in messages && r.value.value.id == messageId && r.value.value.userId == Some(userId)
  {
    match First(messages, MessageIdIs(messageId))
    case None => Ok(None)
    case Some(m) => if m.userId != Some(userId) then Raise(PermissionError(NotYourMessage)) else Ok(Some(m))
  }

  /** A guest's message is refused to every requester, and any message with the key is refused
      exactly when the first one was sent by someone else. */
  lemma MessageDetailOwnership(messages: seq<ContactMessage>, messageId: int, userId: int)
    requires exists i :: 0 <= i < |messages| && messages[i].id == messageId
    ensures var m := First(messages, MessageIdIs(messageId)).value;
      GetMessageDetail(messages, messageId, userId).Raise? <==> m.userId != Some(userId)
    ensures First(messages, MessageIdIs(messageId)).value.userId.None? ==>
      GetMessageDetail(messages, messageId, userId) == Raise(PermissionError(NotYourMessage))
  {
  }
}
