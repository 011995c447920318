/**
 * The message log: a flat list of chat messages, regrouped into one
 * conversation per job (sorted by timestamp) whenever the list changes.
 */
module Chat {
  import opened Wrappers
  import opened Seqs
  import opened Auth

  /** A chat message; `timestamp` is the send time in milliseconds. */
  datatype Message = Message(
    id: string,
    jobId: string,
    senderId: string,
    receiverId: string,
    content: string,
    timestamp: int,
    read: bool)

  const NotLoggedIn := "User must be logged in to send a message"

  /** The messages of one job's conversation. */
  function ForJob(jobId: string): Message -> bool
  {
    (m: Message) => m.jobId == jobId
  }

  /** The messages addressed to `userId` that are still unread. */
  function UnreadFor(userId: string): Message -> bool
  {
    (m: Message) => m.receiverId == userId && !m.read
  }

  /** The sort key of a conversation: the time the message was sent. */
  function SentAt(m: Message): real
  {
    m.timestamp as real
  }

  /** The jobs that have at least one message. */
  function JobIds(messages: seq<Message>): set<string>
  {
    set m | m in messages :: m.jobId
  }

  /** One job's conversation: its messages, oldest first. */
  function Bucket(messages: seq<Message>, jobId: string): seq<Message>
  {
    SortBy(Filter(messages, ForJob(jobId)), SentAt)
  }

  /** The grouping the log keeps: a conversation for every job that has messages. */
  function Grouped(messages: seq<Message>): map<string, seq<Message>>
  {
    map k | k in JobIds(messages) :: Bucket(messages, k)
  }

  /** A job without messages has nothing in its conversation. */
  lemma EmptyOutsideJobIds(messages: seq<Message>, jobId: string)
    requires jobId !in JobIds(messages)
    ensures Filter(messages, ForJob(jobId)) == []
    ensures Bucket(messages, jobId) == []
  {
    var f := Filter(messages, ForJob(jobId));
    assert forall x :: x in f ==> x.jobId in JobIds(messages);
  }

  /** Adding a message to the log extends the set of jobs with messages by its job. */
  lemma JobIdsAppend(messages: seq<Message>, m: Message)
    ensures JobIds(messages + [m]) == JobIds(messages) + {m.jobId}
  {
    forall k | k in JobIds(messages + [m])
      ensures k in JobIds(messages) + {m.jobId}
    {
      var x :| x in messages + [m] && x.jobId == k;
      if x != m {
        assert x in messages;
      }
    }
    forall k | k in JobIds(messages)
      ensures k in JobIds(messages + [m])
    {
      var x :| x in messages && x.jobId == k;
      assert x in messages + [m];
    }
    assert m in messages + [m];
  }

  /** Pushing a message onto its job's bucket (created when missing) keeps the buckets equal to the filters of the log read so far. */
  lemma PushKeepsBuckets(prefix: seq<Message>, m: Message, chats: map<string, seq<Message>>)
    requires chats.Keys == JobIds(prefix)
    requires forall k :: k in chats ==> chats[k] == Filter(prefix, ForJob(k))
    ensures var pushed := chats[m.jobId := (if m.jobId in chats then chats[m.jobId] else []) + [m]];
      && pushed.Keys == JobIds(prefix + [m])
      && forall k :: k in pushed ==> pushed[k] == Filter(prefix + [m], ForJob(k))
  {
    var pushed := chats[m.jobId := (if m.jobId in chats then chats[m.jobId] else []) + [m]];
    JobIdsAppend(prefix, m);
    forall k | k in pushed
      ensures pushed[k] == Filter(prefix + [m], ForJob(k))
    {
      FilterAppend(prefix, m, ForJob(k));
      if k == m.jobId {
        if m.jobId !in chats {
          EmptyOutsideJobIds(prefix, m.jobId);
        }
        assert ForJob(k)(m);
      } else {
        assert !ForJob(k)(m);
        assert pushed[k] == chats[k];
      }
    }
  }

  /** The first pass of the grouping effect: each message is pushed onto its job's bucket, created on first use. */
  method CollectByJob(messages: seq<Message>) returns (chats: map<string, seq<Message>>)
    ensures chats.Keys == JobIds(messages)
    ensures forall k :: k in chats ==> chats[k] == Filter(messages, ForJob(k))
  {
    chats := map[];
    var i := 0;
    while i < |messages|
      invariant 0 <= i <= |messages|
      invariant chats.Keys == JobIds(messages[..i])
      invariant forall k :: k in chats ==> chats[k] == Filter(messages[..i], ForJob(k))
    {
      var message := messages[i];
      assert messages[..i + 1] == messages[..i] + [message];
      PushKeepsBuckets(messages[..i], message, chats);
      if message.jobId !in chats {
        chats := chats[message.jobId := []];
      }
      chats := chats[message.jobId := chats[message.jobId] + [message]];
      i := i + 1;
    }
    assert messages[..i] == messages;
  }

  /**
   * The state of the sorting pass over the buckets `collected` by the first
   * pass: the same jobs have buckets; the buckets still `pending` are as
   * collected, the others are sorted by timestamp.
   */
  predicate SortingPass(chats: map<string, seq<Message>>, pending: set<string>,
                        collected: map<string, seq<Message>>)
  {
    && pending <= chats.Keys
    && chats.Keys == collected.Keys
    && forall k :: k in chats ==>
         chats[k] == if k in pending then collected[k] else SortBy(collected[k], SentAt)
  }

  /** Sorting one pending bucket keeps the state of the sorting pass. */
  lemma SortOneBucket(chats: map<string, seq<Message>>, pending: set<string>,
                      collected: map<string, seq<Message>>, jobId: string)
    requires SortingPass(chats, pending, collected) && jobId in pending
    ensures SortingPass(chats[jobId := SortBy(chats[jobId], SentAt)], pending - {jobId}, collected)
  {
    var sorted := chats[jobId := SortBy(chats[jobId], SentAt)];
    forall k | k in sorted
      ensures sorted[k] == if k in pending - {jobId} then collected[k] else SortBy(collected[k], SentAt)
    {
      if k != jobId {
        assert sorted[k] == chats[k];
      }
    }
  }

  /**
   * The grouping effect: the buckets collected by `CollectByJob`, each then
   * sorted by timestamp.
   */
  method GroupByJob(messages: seq<Message>) returns (chats: map<string, seq<Message>>)
    ensures chats == Grouped(messages)
  {
    chats := CollectByJob(messages);
    ghost var collected := chats;
    var pending := chats.Keys;
    while pending != {}
      invariant SortingPass(chats, pending, collected)
      decreases pending
    {
      var jobId :| jobId in pending;
      SortOneBucket(chats, pending, collected, jobId);
      chats := chats[jobId := SortBy(chats[jobId], SentAt)];
      pending := pending - {jobId};
    }
    FinishedPass(chats, collected, messages);
    SameBuckets(chats, messages);
  }

  /** Once every collected bucket is sorted, each bucket is its job's conversation. */
  lemma FinishedPass(chats: map<string, seq<Message>>, collected: map<string, seq<Message>>,
                     messages: seq<Message>)
    requires collected.Keys == JobIds(messages)
    requires forall k :: k in collected ==> collected[k] == Filter(messages, ForJob(k))
    requires SortingPass(chats, {}, collected)
    ensures chats.Keys == JobIds(messages)
    ensures forall k :: k in chats ==> chats[k] == Bucket(messages, k)
  {
    forall k | k in chats
      ensures chats[k] == Bucket(messages, k)
    {
      assert chats[k] == SortBy(collected[k], SentAt);
    }
  }

  /** A map with a bucket for exactly the jobs with messages, each the job's conversation, is the grouping. */
  lemma SameBuckets(chats: map<string, seq<Message>>, messages: seq<Message>)
    requires chats.Keys == JobIds(messages)
    requires forall k :: k in chats ==> chats[k] == Bucket(messages, k)
    ensures chats == Grouped(messages)
  {
  }

  /**
   * After grouping, every message lies in the conversation of its own job
   * (as often as it occurs in the log), each conversation holds only its
   * job's messages, and each is sorted by timestamp.
   */
  lemma GroupedPartition(messages: seq<Message>)
    ensures var g := Grouped(messages);
      && (forall m :: m in messages ==> m.jobId in g && multiset(g[m.jobId])[m] == multiset(messages)[m])
      && (forall k, m :: k in g && m in g[k] ==> m.jobId == k)
      && (forall k :: k in g ==> SortedBy(g[k], SentAt))
  {
    var g := Grouped(messages);
    forall k: string, m: Message | k in g && m in g[k]
      ensures m.jobId == k
    {
      assert m in multiset(g[k]);
    }
  }

  /** A choice of a key of a non-empty map. */
  ghost function Pick(chats: map<string, seq<Message>>): string
    requires chats != map[]
    ensures Pick(chats) in chats
  {
    var k :| k in chats; k
  }

  /** The bucket sizes summed over all buckets. */
  ghost function TotalSize(chats: map<string, seq<Message>>): nat
    decreases |chats|
  {
    if chats == map[] then 0
    else
      var k := Pick(chats);
      assert |chats - {k}| < |chats| by { assert (chats - {k}).Keys == chats.Keys - {k}; }
      |chats[k]| + TotalSize(chats - {k})
  }

  /** The sum may be taken with any key first. */
  lemma {:induction false} TotalSizeRemove(chats: map<string, seq<Message>>, k0: string)
    requires k0 in chats
    ensures TotalSize(chats) == |chats[k0]| + TotalSize(chats - {k0})
    decreases |chats|
  {
    var k := Pick(chats);
    if k != k0 {
      assert (chats - {k}).Keys == chats.Keys - {k};
      assert (chats - {k0}).Keys == chats.Keys - {k0};
      TotalSizeRemove(chats - {k}, k0);
      TotalSizeRemove(chats - {k0}, k);
      assert chats - {k} - {k0} == chats - {k0} - {k};
    }
  }

  /** The sum depends only on the keys and the bucket sizes. */
  lemma {:induction false} TotalSizeSameSizes(a: map<string, seq<Message>>, b: map<string, seq<Message>>)
    requires a.Keys == b.Keys
    requires forall k :: k in a ==> |a[k]| == |b[k]|
    ensures TotalSize(a) == TotalSize(b)
    decreases |a|
  {
    if a != map[] {
      var k := Pick(a);
      TotalSizeRemove(b, k);
      assert (a - {k}).Keys == a.Keys - {k};
      TotalSizeSameSizes(a - {k}, b - {k});
    }
  }

  /** Appending a message grows its own job's conversation by one and no other. */
  lemma {:induction false} BucketSizeAppend(init: seq<Message>, x: Message, k: string)
    ensures |Bucket(init + [x], k)| == |Bucket(init, k)| + (if x.jobId == k then 1 else 0)
  {
    FilterAppend(init, x, ForJob(k));
  }

  /** Appending a message to the log leaves the size of every other job's conversation alone. */
  lemma GroupedOtherSize(init: seq<Message>, x: Message, k: string)
    requires k in Grouped(init + [x]) && k != x.jobId
    ensures k in Grouped(init) && |Grouped(init + [x])[k]| == |Grouped(init)[k]|
  {
    JobIdsAppend(init, x);
    BucketSizeAppend(init, x, k);
  }

  /** Appending a message to the log grows its job's conversation, created if missing, by one. */
  lemma GroupedOwnSize(init: seq<Message>, x: Message)
    ensures x.jobId in Grouped(init + [x])
    ensures |Grouped(init + [x])[x.jobId]| ==
            (if x.jobId in Grouped(init) then |Grouped(init)[x.jobId]| else 0) + 1
  {
    JobIdsAppend(init, x);
    BucketSizeAppend(init, x, x.jobId);
    if x.jobId !in JobIds(init) {
      EmptyOutsideJobIds(init, x.jobId);
    }
  }

  /** Appending a message grows its job's conversation by one and leaves the other sizes alone. */
  lemma GroupedSizeStep(init: seq<Message>, x: Message)
    ensures var g, g' := Grouped(init), Grouped(init + [x]);
      && g'.Keys == g.Keys + {x.jobId}
      && (forall k :: k in g' && k != x.jobId ==> k in g && |g'[k]| == |g[k]|)
      && |g'[x.jobId]| == (if x.jobId in g then |g[x.jobId]| else 0) + 1
  {
    JobIdsAppend(init, x);
    forall k | k in Grouped(init + [x]) && k != x.jobId
      ensures k in Grouped(init) && |Grouped(init + [x])[k]| == |Grouped(init)[k]|
    {
      GroupedOtherSize(init, x, k);
    }
    GroupedOwnSize(init, x);
  }

  /** The conversation sizes add up to the number of messages in the log. */
  lemma {:induction false} GroupedSizesSum(messages: seq<Message>)
    ensures TotalSize(Grouped(messages)) == |messages|
    decreases |messages|
  {
    if messages == [] {
      assert Grouped(messages) == map[];
    } else {
      var init, x := messages[..|messages| - 1], messages[|messages| - 1];
      assert messages == init + [x];
      GroupedSizesSum(init);
      GroupedSizeStep(init, x);
      SizeSumStep(Grouped(init), Grouped(messages), x.jobId);
    }
  }

  /** The sum grows by one when one bucket (possibly new) grows by one and the others keep their sizes. */
  lemma SizeSumStep(g: map<string, seq<Message>>, g': map<string, seq<Message>>, key: string)
    requires g'.Keys == g.Keys + {key}
    requires forall k :: k in g' && k != key ==> k in g && |g'[k]| == |g[k]|
    requires |g'[key]| == (if key in g then |g[key]| else 0) + 1
    ensures TotalSize(g') == TotalSize(g) + 1
  {
    TotalSizeRemove(g', key);
    assert (g' - {key}).Keys == g'.Keys - {key};
    if key in g {
      TotalSizeRemove(g, key);
      TotalSizeSameSizes(g' - {key}, g - {key});
    } else {
      TotalSizeSameSizes(g' - {key}, g);
    }
  }

  /** `markAsRead`: every message whose id is listed becomes read. */
  function MarkRead(messages: seq<Message>, ids: seq<string>): seq<Message>
  {
    seq(|messages|, i requires 0 <= i < |messages| =>
      if messages[i].id in ids then messages[i].(read := true) else messages[i])
  }

  /**
   * Marking keeps the length, sets `read` exactly on the listed messages
   * (never clears it) and changes no other field.
   */
  lemma MarkReadExact(messages: seq<Message>, ids: seq<string>)
    ensures var r := MarkRead(messages, ids);
      && |r| == |messages|
      && (forall i :: 0 <= i < |messages| ==> r[i].read == (messages[i].read || messages[i].id in ids))
      && (forall i :: 0 <= i < |messages| ==> r[i].(read := messages[i].read) == messages[i])
  {
  }

  /** Marking the same ids twice has the effect of marking them once. */
  lemma MarkReadIdempotent(messages: seq<Message>, ids: seq<string>)
    ensures MarkRead(MarkRead(messages, ids), ids) == MarkRead(messages, ids)
  {
    var once := MarkRead(messages, ids);
    var twice := MarkRead(once, ids);
    forall i | 0 <= i < |messages|
      ensures twice[i] == once[i]
    {
    }
  }

  class ChatStore {
    var messages: seq<Message>
    var jobChats: map<string, seq<Message>>

    /** The conversations are the grouping of the current log. */
    ghost predicate Valid()
      reads this
    {
      jobChats == Grouped(messages)
    }

    constructor (initial: seq<Message>)
      ensures messages == initial && Valid()
    {
      var chats := GroupByJob(initial);
      messages := initial;
      jobChats := chats;
    }

    /**
     * `sendMessage`: fails when nobody is signed in, leaving the log alone;
     * otherwise appends one unread message from the signed-in user. `id` and
     * `timestamp` are the generated id and the send time.
     */
    method SendMessage(currentUser: Option<User>, jobId: string, receiverId: string, content: string,
                       id: string, timestamp: int) returns (r: Result<()>)
      requires Valid()
      modifies this
      ensures currentUser.None? ==> r == Err(NotLoggedIn) && messages == old(messages)
      ensures currentUser.Some? ==> r == Ok(())
      ensures currentUser.Some? ==>
        messages == old(messages) + [Message(id, jobId, currentUser.value.id, receiverId, content, timestamp, false)]
      ensures Valid()
    {
      if currentUser.None? {
        return Err(NotLoggedIn);
      }
      var newMessage := Message(id, jobId, currentUser.value.id, receiverId, content, timestamp, false);
      messages := messages + [newMessage];
      jobChats := GroupByJob(messages);
      r := Ok(());
    }

    /** `getJobMessages`: the job's conversation, or nothing for a job without messages. */
    function GetJobMessages(jobId: string): (r: seq<Message>)
      reads this
      requires Valid()
      ensures r == Bucket(messages, jobId)
      ensures SortedBy(r, SentAt)
      ensures (forall m :: m in messages ==> m.jobId != jobId) ==> r == []
    {
      if jobId in jobChats then jobChats[jobId]
      else
        EmptyOutsideJobIds(messages, jobId);
        []
    }

    method MarkAsRead(ids: seq<string>)
      requires Valid()
      modifies this
      ensures messages == MarkRead(old(messages), ids)
      ensures Valid()
    {
      messages := MarkRead(messages, ids);
      jobChats := GroupByJob(messages);
    }

    /**
     * `getUnreadCount`: zero when nobody is signed in; otherwise the number of
     * the job's messages addressed to the signed-in user and still unread,
     * which never exceeds the size of the conversation.
     */
    function GetUnreadCount(currentUser: Option<User>, jobId: string): (n: nat)
      reads this
      requires Valid()
      ensures currentUser.None? ==> n == 0
      ensures n <= |GetJobMessages(jobId)|
      ensures currentUser.Some? ==>
        n == |Filter(Filter(messages, ForJob(jobId)), UnreadFor(currentUser.value.id))|
    {
      if currentUser.None? then 0
      else
        FilterCountPermutation(GetJobMessages(jobId), Filter(messages, ForJob(jobId)), UnreadFor(currentUser.value.id));
        |Filter(GetJobMessages(jobId), UnreadFor(currentUser.value.id))|
    }
  }
}
