/**
 * The message service (src/services/message.service.ts): threads with a list
 * of participants, messages inside them, a "message.new" notification for
 * every other participant when one is sent, the newest page of a thread's
 * messages in chronological order, and marking a thread's messages as read.
 *
 * The sender's display name (a profile lookup), generated ids and the clock
 * are inputs. The messages table is kept in insertion order, which the model
 * takes as the order of `created_at`.
 */
module Messages {
  import opened Errors
  import opened Text
  import opened Rows

  datatype ThreadInput = ThreadInput(listingId: Option<string>, bookingId: Option<string>, participantIds: seq<string>)

  /** How many messages a page holds when the caller gives no limit. */
  const DefaultLimit: nat := 50

  /** How many characters of a message a notification body keeps. */
  const PreviewLength: nat := 100

  /** `findThreadById` */
  function FindThread(t: Tables, threadId: string): (r: Result<Thread>)
    ensures r.Ok? <==> threadId in t.threads
    ensures r.Ok? ==> r.value == t.threads[threadId]
    ensures r.Err? ==> r.error == App(NotFoundError("Thread not found"))
  {
    if threadId in t.threads then Ok(t.threads[threadId]) else Err(App(NotFoundError("Thread not found")))
  }

  /** `createThread`: the creator must be among the participants. */
  function CreateThreadSpec(t: Tables, threadId: string, userId: string, input: ThreadInput, writeError: Option<string>): Step<Thread>
  {
    if userId !in input.participantIds then
      Step(t, Err(App(ForbiddenError("You must be a participant in the thread"))))
    else if writeError.Some? then
      Step(t, Err(App(DatabaseError("Failed to create thread: " + writeError.value))))
    else
      var thread := Thread(threadId, input.listingId, input.bookingId, input.participantIds);
      Step(t.(threads := t.threads[threadId := thread]), Ok(thread))
  }

  method CreateThread(db: Database, threadId: string, userId: string, input: ThreadInput, writeError: Option<string>)
    returns (r: Result<Thread>)
    modifies db
    ensures (db.Snapshot(), r) == (CreateThreadSpec(old(db.Snapshot()), threadId, userId, input, writeError).tables,
                                   CreateThreadSpec(old(db.Snapshot()), threadId, userId, input, writeError).result)
  {
    if userId !in input.participantIds {
      return Err(App(ForbiddenError("You must be a participant in the thread")));
    }
    if writeError.Some? {
      return Err(App(DatabaseError("Failed to create thread: " + writeError.value)));
    }
    var thread := Thread(threadId, input.listingId, input.bookingId, input.participantIds);
    db.threads := db.threads[threadId := thread];
    return Ok(thread);
  }

  /** `getThread`: only a participant may read a thread. */
  function GetThread(t: Tables, threadId: string, userId: string): (r: Result<Thread>)
    ensures r.Ok? <==> threadId in t.threads && userId in t.threads[threadId].participantIds
    ensures r.Ok? ==> r.value == t.threads[threadId]
    ensures threadId !in t.threads ==> r == Err(App(NotFoundError("Thread not found")))
    ensures threadId in t.threads && userId !in t.threads[threadId].participantIds ==>
      r == Err(App(ForbiddenError("You are not a participant in this thread")))
  {
    match FindThread(t, threadId)
    case Err(e) => Err(e)
    case Ok(thread) =>
      if userId !in thread.participantIds then Err(App(ForbiddenError("You are not a participant in this thread")))
      else Ok(thread)
  }

  /** `findUserThreads`: the threads whose participants include the user. */
  function UserThreads(t: Tables, userId: string, readError: Option<string>): (r: Result<set<Thread>>)
    ensures r.Err? <==> readError.Some?
    ensures r.Err? ==> r.error == App(DatabaseError("Failed to get threads: " + readError.value))
    ensures r.Ok? ==> forall th :: th in r.value <==> th in t.threads.Values && userId in th.participantIds
  {
    if readError.Some? then Err(App(DatabaseError("Failed to get threads: " + readError.value)))
    else Ok(set id | id in t.threads && userId in t.threads[id].participantIds :: t.threads[id])
  }

  // ---------------------------------------------------------------------------
  // sendMessage

  /** `participant_ids.filter((id) => id !== senderId)`: order and repetitions kept. */
  function Others(ids: seq<string>, senderId: string): (r: seq<string>)
    ensures forall x :: x in r <==> x in ids && x != senderId
    ensures |r| <= |ids|
  {
    if ids == [] then []
    else (if ids[0] != senderId then [ids[0]] else []) + Others(ids[1..], senderId)
  }

  /** `display_name || "Someone"` */
  function SenderName(name: Option<string>): string
  {
    if Truthy(name) then name.value else "Someone"
  }

  /** One notification per recipient, in recipient order. */
  function MessageNotifications(recipients: seq<string>, senderName: Option<string>, content: string): (r: seq<Notification>)
    ensures |r| == |recipients|
  {
    seq(|recipients|, i requires 0 <= i < |recipients| =>
      Notification(recipients[i], "message.new", "New message from " + SenderName(senderName), Take(content, PreviewLength)))
  }

  function SendMessageSpec(t: Tables, messageId: string, threadId: string, senderId: string, content: string,
                           senderName: Option<string>, now: int, writeError: Option<string>): Step<Message>
  {
    match FindThread(t, threadId)
    case Err(e) => Step(t, Err(e))
    case Ok(thread) =>
      if senderId !in thread.participantIds then
        Step(t, Err(App(ForbiddenError("Not a participant in this thread"))))
      else if writeError.Some? then
        Step(t, Err(App(DatabaseError("Failed to send message: " + writeError.value))))
      else
        var m := Message(messageId, threadId, senderId, content, None, now);
        var fanOut := MessageNotifications(Others(thread.participantIds, senderId), senderName, content);
        Step(t.(messages := t.messages + [m], notifications := t.notifications + fanOut), Ok(m))
  }

  method SendMessage(db: Database, messageId: string, threadId: string, senderId: string, content: string,
                     senderName: Option<string>, now: int, writeError: Option<string>) returns (r: Result<Message>)
    modifies db
    ensures (db.Snapshot(), r) == (SendMessageSpec(old(db.Snapshot()), messageId, threadId, senderId, content, senderName, now, writeError).tables,
                                   SendMessageSpec(old(db.Snapshot()), messageId, threadId, senderId, content, senderName, now, writeError).result)
  {
    if threadId !in db.threads {
      return Err(App(NotFoundError("Thread not found")));
    }
    var thread := db.threads[threadId];
    if senderId !in thread.participantIds {
      return Err(App(ForbiddenError("Not a participant in this thread")));
    }
    if writeError.Some? {
      return Err(App(DatabaseError("Failed to send message: " + writeError.value)));
    }
    var message := Message(messageId, threadId, senderId, content, None, now);
    db.messages := db.messages + [message];
    var others := Others(thread.participantIds, senderId);
    db.notifications := db.notifications + MessageNotifications(others, senderName, content);
    return Ok(message);
  }

  // ---------------------------------------------------------------------------
  // findMessages

  /** The thread's messages the query selects (`created_at < before` when a cursor is given), oldest first. */
  function InThread(ms: seq<Message>, threadId: string, before: Option<int>): (r: seq<Message>)
    ensures forall m :: m in r <==> m in ms && m.threadId == threadId && (before.Some? ==> m.createdAt < before.value)
    ensures |r| <= |ms|
  {
    if ms == [] then []
    else (if ms[0].threadId == threadId && (before.Some? ==> ms[0].createdAt < before.value) then [ms[0]] else [])
         + InThread(ms[1..], threadId, before)
  }

  /**
   * `findMessages`: newest first, at most `limit` rows (50 by default),
   * then reversed to oldest first. The thread must exist; participation is
   * not checked.
   */
  function FindMessages(t: Tables, threadId: string, userId: string, limit: Option<nat>, before: Option<int>, readError: Option<string>)
    : (r: Result<seq<Message>>)
    ensures threadId !in t.threads ==> r == Err(App(NotFoundError("Thread not found")))
    ensures threadId in t.threads && readError.Some? ==> r == Err(App(DatabaseError("Failed to get messages: " + readError.value)))
    ensures r.Ok? <==> threadId in t.threads && readError.None?
  {
    match FindThread(t, threadId)
    case Err(e) => Err(e)
    case Ok(_) =>
      if readError.Some? then Err(App(DatabaseError("Failed to get messages: " + readError.value)))
      else Ok(Reverse(Take(Reverse(InThread(t.messages, threadId, before)), limit.GetOr(DefaultLimit))))
  }

  // ---------------------------------------------------------------------------
  // markAsRead

  /** Whether `markAsRead(threadId, userId)` stamps this message: in the thread, from someone else, still unread. */
  predicate Unread(m: Message, threadId: string, userId: string)
  {
    m.threadId == threadId && m.senderId != userId && m.readAt.None?
  }

  /** The update: every message it selects gets `read_at`, the others keep theirs. */
  function MarkRead(ms: seq<Message>, threadId: string, userId: string, now: int): (r: seq<Message>)
    ensures |r| == |ms|
  {
    seq(|ms|, i requires 0 <= i < |ms| => if Unread(ms[i], threadId, userId) then ms[i].(readAt := Some(now)) else ms[i])
  }

  /** The thread must exist; the update's own outcome is not checked. */
  function MarkAsReadSpec(t: Tables, threadId: string, userId: string, now: int): Step<()>
  {
    match FindThread(t, threadId)
    case Err(e) => Step(t, Err(e))
    case Ok(_) => Step(t.(messages := MarkRead(t.messages, threadId, userId, now)), Ok(()))
  }

  method MarkAsRead(db: Database, threadId: string, userId: string, now: int) returns (r: Result<()>)
    modifies db
    ensures (db.Snapshot(), r) == (MarkAsReadSpec(old(db.Snapshot()), threadId, userId, now).tables,
                                   MarkAsReadSpec(old(db.Snapshot()), threadId, userId, now).result)
  {
    if threadId !in db.threads {
      return Err(App(NotFoundError("Thread not found")));
    }
    db.messages := MarkRead(db.messages, threadId, userId, now);
    return Ok(());
  }

  // ---------------------------------------------------------------------------
  // Properties

  /** Creating a thread requires the creator among the participants, and stores the thread as given. */
  lemma CreateThreadGuard(t: Tables, threadId: string, userId: string, input: ThreadInput, writeError: Option<string>)
    ensures var s := CreateThreadSpec(t, threadId, userId, input, writeError);
      && (userId !in input.participantIds ==> s == Step(t, Err(App(ForbiddenError("You must be a participant in the thread")))))
      && (s.result.Ok? <==> userId in input.participantIds && writeError.None?)
      && (s.result.Ok? ==> s.tables.threads == t.threads[threadId := s.result.value]
                           && s.result.value.participantIds == input.participantIds
                           && userId in s.result.value.participantIds)
      && (s.result.Err? ==> s.tables == t)
  {
  }

  /** Only a participant of an existing thread can send to it; a refused message writes nothing. */
  lemma SendMessageGuard(t: Tables, messageId: string, threadId: string, senderId: string, content: string,
                         senderName: Option<string>, now: int, writeError: Option<string>)
    ensures var s := SendMessageSpec(t, messageId, threadId, senderId, content, senderName, now, writeError);
      && (threadId !in t.threads ==> s == Step(t, Err(App(NotFoundError("Thread not found")))))
      && (threadId in t.threads && senderId !in t.threads[threadId].participantIds ==>
            s == Step(t, Err(App(ForbiddenError("Not a participant in this thread")))))
      && (s.result.Ok? <==> threadId in t.threads && senderId in t.threads[threadId].participantIds && writeError.None?)
      && (s.result.Err? ==> s.tables == t)
  {
  }

  /** Each participant other than the sender occurs as often after the filter as before; the sender not at all. */
  lemma OthersMultiset(ids: seq<string>, senderId: string)
    ensures multiset(Others(ids, senderId)) == multiset(ids)[senderId := 0]
  {
    forall x
      ensures multiset(Others(ids, senderId))[x] == multiset(ids)[senderId := 0][x]
    {
      OthersOccurrences(ids, senderId, x);
    }
  }

  lemma {:induction false} OthersOccurrences(ids: seq<string>, senderId: string, x: string)
    ensures multiset(Others(ids, senderId))[x] == if x == senderId then 0 else multiset(ids)[x]
  {
    if ids != [] {
      OthersOccurrences(ids[1..], senderId, x);
      assert ids == [ids[0]] + ids[1..];
      var head := if ids[0] != senderId then [ids[0]] else [];
      assert Others(ids, senderId) == head + Others(ids[1..], senderId);
      assert multiset(ids)[x] == multiset([ids[0]])[x] + multiset(ids[1..])[x];
    }
  }

  /** The filter keeps exactly the occurrences of participants other than the sender: every one of them, and no occurrence of the sender. */
  lemma {:induction false} OthersCount(ids: seq<string>, senderId: string)
    ensures |Others(ids, senderId)| == |ids| - multiset(ids)[senderId]
    ensures senderId in ids ==> |Others(ids, senderId)| < |ids|
    ensures multiset(Others(ids, senderId)) == multiset(ids)[senderId := 0]
  {
    OthersMultiset(ids, senderId);
    if ids != [] {
      OthersCount(ids[1..], senderId);
      assert ids == [ids[0]] + ids[1..];
      assert multiset(ids) == multiset{ids[0]} + multiset(ids[1..]);
      if senderId in ids {
        assert multiset(ids)[senderId] > 0;
      }
    }
  }

  /**
   * A sent message is appended to the table unread, and the notifications
   * appended are one per other participant, in participant order: none for the
   * sender, each titled with the sender's name (or "Someone") and carrying the
   * first 100 characters of the content.
   */
  lemma SendMessageFansOut(t: Tables, messageId: string, threadId: string, senderId: string, content: string,
                           senderName: Option<string>, now: int, writeError: Option<string>)
    requires SendMessageSpec(t, messageId, threadId, senderId, content, senderName, now, writeError).result.Ok?
    ensures var s := SendMessageSpec(t, messageId, threadId, senderId, content, senderName, now, writeError);
      var others := Others(t.threads[threadId].participantIds, senderId);
      var added := s.tables.notifications[|t.notifications|..];
      && s.tables.messages == t.messages + [s.result.value]
      && s.result.value == Message(messageId, threadId, senderId, content, None, now)
      && s.tables.notifications[..|t.notifications|] == t.notifications
      && |added| == |others|
      && (forall i :: 0 <= i < |added| ==> added[i].userId == others[i] && added[i].userId != senderId)
      && (forall u :: u in t.threads[threadId].participantIds && u != senderId <==> exists n :: n in added && n.userId == u)
      && (forall n :: n in added ==>
            n.kind == "message.new" && n.body == Take(content, 100) && n.title == "New message from " + SenderName(senderName))
      && s.tables.threads == t.threads && s.tables.bookings == t.bookings
  {
    var s := SendMessageSpec(t, messageId, threadId, senderId, content, senderName, now, writeError);
    var others := Others(t.threads[threadId].participantIds, senderId);
    var fanOut := MessageNotifications(others, senderName, content);
    assert s.tables.notifications == t.notifications + fanOut;
    var added := s.tables.notifications[|t.notifications|..];
    assert added == fanOut;
    forall u | u in t.threads[threadId].participantIds && u != senderId
      ensures exists n :: n in added && n.userId == u
    {
      var i :| 0 <= i < |others| && others[i] == u;
      assert added[i] in added;
    }
  }

  /** The page is the newest `limit` selected messages (50 by default), oldest first. */
  lemma FindMessagesIsNewestPage(t: Tables, threadId: string, userId: string, limit: Option<nat>, before: Option<int>)
    requires threadId in t.threads
    ensures var all := InThread(t.messages, threadId, before);
      var n := limit.GetOr(DefaultLimit);
      var k := if n < |all| then n else |all|;
      FindMessages(t, threadId, userId, limit, before, None) == Ok(all[|all| - k..])
  {
    var all := InThread(t.messages, threadId, before);
    var n := limit.GetOr(DefaultLimit);
    assert FindThread(t, threadId).Ok?;
    assert FindMessages(t, threadId, userId, limit, before, None) == Ok(Reverse(Take(Reverse(all), n)));
    LastOfReversed(all, n);
  }

  /** The first `limit` rows when there are more, every selected row otherwise. */
  lemma FindMessagesBounds(t: Tables, threadId: string, userId: string, limit: Option<nat>, before: Option<int>)
    requires threadId in t.threads
    ensures var r := FindMessages(t, threadId, userId, limit, before, None).value;
      && |r| <= limit.GetOr(DefaultLimit)
      && (|InThread(t.messages, threadId, before)| >= limit.GetOr(DefaultLimit) ==> |r| == limit.GetOr(DefaultLimit))
      && (|InThread(t.messages, threadId, before)| <= limit.GetOr(DefaultLimit) ==> r == InThread(t.messages, threadId, before))
      && forall m :: m in r ==> m in t.messages && m.threadId == threadId && (before.Some? ==> m.createdAt < before.value)
  {
    FindMessagesIsNewestPage(t, threadId, userId, limit, before);
    var all := InThread(t.messages, threadId, before);
    var r := FindMessages(t, threadId, userId, limit, before, None).value;
    forall m | m in r
      ensures m in all
    {
      var i :| 0 <= i < |r| && r[i] == m;
    }
  }

  /** Messages ordered by creation time. */
  predicate Chronological(ms: seq<Message>)
  {
    forall i, j :: 0 <= i < j < |ms| ==> ms[i].createdAt <= ms[j].createdAt
  }

  lemma {:induction false} InThreadChronological(ms: seq<Message>, threadId: string, before: Option<int>)
    requires Chronological(ms)
    ensures Chronological(InThread(ms, threadId, before))
  {
    if ms != [] {
      InThreadChronological(ms[1..], threadId, before);
      var rest := InThread(ms[1..], threadId, before);
      forall j | 0 <= j < |rest|
        ensures ms[0].createdAt <= rest[j].createdAt
      {
        assert rest[j] in rest;
        var k :| 0 <= k < |ms[1..]| && ms[1..][k] == rest[j];
        assert ms[k + 1] == rest[j];
      }
    }
  }

  /** A chronological table yields a chronological page. */
  lemma PagesAreChronological(t: Tables, threadId: string, userId: string, limit: Option<nat>, before: Option<int>)
    requires threadId in t.threads
    requires Chronological(t.messages)
    ensures Chronological(FindMessages(t, threadId, userId, limit, before, None).value)
  {
    FindMessagesIsNewestPage(t, threadId, userId, limit, before);
    var all := InThread(t.messages, threadId, before);
    var n := limit.GetOr(DefaultLimit);
    InThreadChronological(t.messages, threadId, before);
    SuffixChronological(all, |all| - (if n < |all| then n else |all|));
  }

  lemma SuffixChronological(ms: seq<Message>, d: nat)
    requires Chronological(ms) && d <= |ms|
    ensures Chronological(ms[d..])
  {
    forall i, j | 0 <= i < j < |ms[d..]|
      ensures ms[d..][i].createdAt <= ms[d..][j].createdAt
    {
      assert ms[d..][i] == ms[d + i] && ms[d..][j] == ms[d + j];
    }
  }

  /** A message sent no earlier than every stored one keeps the table chronological. */
  lemma SendKeepsChronological(t: Tables, messageId: string, threadId: string, senderId: string, content: string,
                               senderName: Option<string>, now: int, writeError: Option<string>)
    requires Chronological(t.messages)
    requires forall i :: 0 <= i < |t.messages| ==> t.messages[i].createdAt <= now
    ensures Chronological(SendMessageSpec(t, messageId, threadId, senderId, content, senderName, now, writeError).tables.messages)
  {
  }

  /**
   * Marking as read stamps exactly the thread's unread messages from other
   * senders; every other message, and every other table, stays as it was.
   * Afterwards no message of the thread from another sender is unread.
   */
  lemma MarkAsReadEffect(t: Tables, threadId: string, userId: string, now: int)
    requires threadId in t.threads
    ensures var s := MarkAsReadSpec(t, threadId, userId, now);
      && s.result == Ok(())
      && s.tables == t.(messages := s.tables.messages)
      && |s.tables.messages| == |t.messages|
      && (forall i :: 0 <= i < |t.messages| ==>
            if Unread(t.messages[i], threadId, userId)
            then s.tables.messages[i] == t.messages[i].(readAt := Some(now))
            else s.tables.messages[i] == t.messages[i])
      && (forall i :: 0 <= i < |t.messages| ==> !Unread(s.tables.messages[i], threadId, userId))
  {
  }

  /** Marking as read twice is marking once, whatever the second clock reads. */
  lemma MarkReadIdempotent(ms: seq<Message>, threadId: string, userId: string, now1: int, now2: int)
    ensures MarkRead(MarkRead(ms, threadId, userId, now1), threadId, userId, now2) == MarkRead(ms, threadId, userId, now1)
  {
    var once := MarkRead(ms, threadId, userId, now1);
    var twice := MarkRead(once, threadId, userId, now2);
    forall i | 0 <= i < |ms|
      ensures twice[i] == once[i]
    {
      assert !Unread(once[i], threadId, userId);
    }
  }

  /** Neither reading a page nor marking as read looks at participation: any user of an existing thread succeeds. */
  lemma ReadsSkipParticipation(t: Tables, threadId: string, u1: string, u2: string, limit: Option<nat>, before: Option<int>, now: int)
    requires threadId in t.threads
    ensures FindMessages(t, threadId, u1, limit, before, None) == FindMessages(t, threadId, u2, limit, before, None)
    ensures FindMessages(t, threadId, u1, limit, before, None).Ok?
    ensures MarkAsReadSpec(t, threadId, u1, now).result.Ok? && MarkAsReadSpec(t, threadId, u2, now).result.Ok?
  {
  }
}
