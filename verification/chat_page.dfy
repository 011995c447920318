/**
 * The chat page for one job and one counterpart (the route's `jobId` and
 * `userId`): whom it shows as the chat partner, which messages it marks as
 * read when it shows them, and when the composer actually sends.
 */
module ChatView {
  import opened Wrappers
  import opened Seqs
  import opened Auth
  import opened Jobs
  import opened Chat
  import JobDetails

  /** The header's chat partner; the id is absent when a poster opens a job without a worker. */
  datatype Partner = Partner(id: Option<string>, name: Option<string>, image: Option<string>)

  /** `chatPartner`: the worker when the signed-in user posted the job, the poster otherwise. */
  function ChatPartner(job: Option<Job>, currentUser: Option<User>): Option<Partner>
  {
    if job.None? then None
    else if currentUser.Some? && currentUser.value.id == job.value.userId
    then Some(Partner(job.value.workerId, job.value.workerName, job.value.workerImage))
    else Some(Partner(Some(job.value.userId), Some(job.value.userName), job.value.userImage))
  }

  /**
   * The partner is the other party of the job: the poster sees the worker,
   * everybody else (in particular the job's worker) sees the poster; the page
   * has a partner exactly when it has a job.
   */
  lemma PartnerIsOtherParty(job: Option<Job>, currentUser: Option<User>)
    ensures ChatPartner(job, currentUser).Some? <==> job.Some?
    ensures job.Some? && JobDetails.IsJobPoster(currentUser, job.value) ==>
      ChatPartner(job, currentUser).value.id == job.value.workerId
    ensures job.Some? && !JobDetails.IsJobPoster(currentUser, job.value) ==>
      ChatPartner(job, currentUser).value.id == Some(job.value.userId)
    ensures job.Some? && currentUser.Some? && job.value.workerId == Some(currentUser.value.id)
            && currentUser.value.id != job.value.userId ==>
      ChatPartner(job, currentUser).value.id == Some(job.value.userId)
  {
  }

  /**
   * The chat link of the job details page leads to a chat whose header shows
   * the very user the link names.
   */
  lemma ChatLinkMeetsPartner(userType: Option<UserType>, currentUser: Option<User>, job: Job, c: string)
    requires JobDetails.MessageCounterpart(c) in JobDetails.Actions(userType, currentUser, job)
    ensures ChatPartner(Some(job), currentUser).value.id == Some(c)
  {
    JobDetails.ChatLinkGate(userType, currentUser, job, c);
  }

  /** `.map(msg => msg.id)` */
  function Ids(ms: seq<Message>): (r: seq<string>)
    ensures |r| == |ms|
  {
    seq(|ms|, i requires 0 <= i < |ms| => ms[i].id)
  }

  /** The ids the page hands to `markAsRead`: those of the shown messages addressed to the user and unread. */
  function UnreadIds(conversation: seq<Message>, userId: string): seq<string>
  {
    Ids(Filter(conversation, UnreadFor(userId)))
  }

  /** An id is selected exactly when it is the id of a shown message addressed to the user and unread. */
  lemma UnreadIdsExact(conversation: seq<Message>, userId: string)
    ensures forall id :: id in UnreadIds(conversation, userId) <==>
      exists m :: m in conversation && m.receiverId == userId && !m.read && m.id == id
    ensures |UnreadIds(conversation, userId)| == |Filter(conversation, UnreadFor(userId))|
  {
    var unread := Filter(conversation, UnreadFor(userId));
    forall id | id in UnreadIds(conversation, userId)
      ensures exists m :: m in conversation && m.receiverId == userId && !m.read && m.id == id
    {
      var k :| 0 <= k < |unread| && Ids(unread)[k] == id;
      assert unread[k] in unread;
    }
    forall id | exists m :: m in conversation && m.receiverId == userId && !m.read && m.id == id
      ensures id in UnreadIds(conversation, userId)
    {
      var m :| m in conversation && m.receiverId == userId && !m.read && m.id == id;
      assert m in unread;
      var k :| 0 <= k < |unread| && unread[k] == m;
      assert Ids(unread)[k] == id;
    }
  }

  /** Marking nothing changes nothing. */
  lemma MarkNothing(messages: seq<Message>)
    ensures MarkRead(messages, []) == messages
  {
  }

  /**
   * After the page marks the ids it selected from a job's conversation, no
   * message of that job addressed to the user is unread any more.
   */
  lemma MarkingClearsUnread(messages: seq<Message>, jobId: string, userId: string)
    ensures Filter(Filter(MarkRead(messages, UnreadIds(Bucket(messages, jobId), userId)), ForJob(jobId)),
                   UnreadFor(userId)) == []
  {
    var ids := UnreadIds(Bucket(messages, jobId), userId);
    var marked := MarkRead(messages, ids);
    forall x | x in marked && x.jobId == jobId && x.receiverId == userId
      ensures x.read
    {
      var i :| 0 <= i < |marked| && marked[i] == x;
      var m := messages[i];
      if !m.read {
        assert m in messages;
        assert m in Filter(messages, ForJob(jobId));
        assert multiset(Bucket(messages, jobId)) == multiset(Filter(messages, ForJob(jobId)));
        assert m in multiset(Bucket(messages, jobId));
        UnreadIdsExact(Bucket(messages, jobId), userId);
        assert m.id in ids;
      }
    }
    var shown := Filter(marked, ForJob(jobId));
    forall i | 0 <= i < |shown|
      ensures !UnreadFor(userId)(shown[i])
    {
      assert shown[i] in shown;
    }
    FilterDropsAll(shown, UnreadFor(userId));
  }

  /**
   * The mark-as-read effect: with a job id and a signed-in user, the unread
   * messages of the shown conversation addressed to the user are marked, and
   * `markAsRead` is called only when there are some. Afterwards that job's
   * unread count for the user is zero.
   */
  method MarkShownAsRead(chat: ChatStore, jobId: Option<string>, currentUser: Option<User>)
    requires chat.Valid()
    modifies chat
    ensures chat.Valid()
    ensures !(Supplied(jobId) && currentUser.Some?) ==> chat.messages == old(chat.messages)
    ensures Supplied(jobId) && currentUser.Some? ==>
      var ids := UnreadIds(Bucket(old(chat.messages), jobId.value), currentUser.value.id);
      chat.messages == if ids == [] then old(chat.messages) else MarkRead(old(chat.messages), ids)
    ensures Supplied(jobId) && currentUser.Some? ==> chat.GetUnreadCount(currentUser, jobId.value) == 0
  {
    if Supplied(jobId) && currentUser.Some? {
      var messages := chat.GetJobMessages(jobId.value);
      var unreadMessages := UnreadIds(messages, currentUser.value.id);
      MarkingClearsUnread(chat.messages, jobId.value, currentUser.value.id);
      if |unreadMessages| > 0 {
        chat.MarkAsRead(unreadMessages);
      } else {
        MarkNothing(chat.messages);
      }
    }
  }

  /** The characters `String.prototype.trim` strips: ECMAScript's WhiteSpace and LineTerminator code points. */
  predicate IsWhitespace(c: char)
  {
    || c == '\t' || c == '\n' || c == '\U{000B}' || c == '\U{000C}' || c == '\r' || c == ' '
    || c == '\U{00A0}' || c == '\U{1680}' || ('\U{2000}' <= c <= '\U{200A}')
    || c == '\U{2028}' || c == '\U{2029}' || c == '\U{202F}' || c == '\U{205F}'
    || c == '\U{3000}' || c == '\U{FEFF}'
  }

  /** `!message.trim()`: nothing but whitespace. */
  predicate IsBlank(message: string)
  {
    forall i :: 0 <= i < |message| ==> IsWhitespace(message[i])
  }

  /** The guard of `handleSendMessage`. */
  predicate SendAllowed(message: string, jobId: Option<string>, userId: Option<string>, currentUser: Option<User>)
  {
    !IsBlank(message) && Supplied(jobId) && Supplied(userId) && currentUser.Some?
  }

  /** A message appended to the log shows up in its job's conversation. */
  lemma SentMessageShown(messages: seq<Message>, m: Message)
    ensures m in Bucket(messages + [m], m.jobId)
  {
    var all := messages + [m];
    assert all[|messages|] == m;
    assert m in Filter(all, ForJob(m.jobId));
    assert m in multiset(Bucket(all, m.jobId));
  }

  /** The composer: the draft text and whether a send is running. */
  class Composer {
    var message: string
    var isSending: bool

    constructor ()
      ensures message == "" && !isSending
    {
      message, isSending := "", false;
    }

    /**
     * `handleSendMessage`: a blank draft, or a missing job id, counterpart or
     * signed-in user, sends nothing and keeps the draft. Otherwise the draft,
     * as typed, goes to the route's counterpart for the route's job, shows up
     * in that job's conversation, and the draft is cleared.
     */
    method HandleSendMessage(chat: ChatStore, jobId: Option<string>, userId: Option<string>,
                             currentUser: Option<User>, id: string, timestamp: int)
      requires chat.Valid()
      modifies this, chat
      ensures chat.Valid()
      ensures !SendAllowed(old(message), jobId, userId, currentUser) ==>
        chat.messages == old(chat.messages) && message == old(message) && isSending == old(isSending)
      ensures SendAllowed(old(message), jobId, userId, currentUser) ==>
        var sent := Message(id, jobId.value, currentUser.value.id, userId.value, old(message), timestamp, false);
        && chat.messages == old(chat.messages) + [sent]
        && sent in chat.GetJobMessages(jobId.value)
        && message == "" && !isSending
    {
      if !SendAllowed(message, jobId, userId, currentUser) {
        return;
      }
      isSending := true;
      var sent := Message(id, jobId.value, currentUser.value.id, userId.value, message, timestamp, false);
      SentMessageShown(chat.messages, sent);
      var _ := chat.SendMessage(currentUser, jobId.value, userId.value, message, id, timestamp);
      message := "";
      isSending := false;
    }
  }
}
