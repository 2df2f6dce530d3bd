/** The thread list of the messages page (`src/pages/Messages.tsx`): a
    reduce folds the message list into one entry per thread, creating the
    entry from the thread's first message and updating it with each later
    one, and the entries are then sorted newest first. */
module MessageThreads {
  import opened Seqs
  import opened JsStrings
  import opened Records
  import opened Utils
  import opened Data

  /** One entry of `messageThreads`. */
  datatype Thread = Thread(
    id: string,
    participants: seq<string>,
    lastMessage: string,
    lastMessageTime: int,
    unreadCount: nat,
    isUrgent: bool,
    priority: Priority,
    avatar: string)

  function ThreadTime(t: Thread): int { t.lastMessageTime }

  function ThreadKey(t: Thread): string { t.id }

  function Sender(m: Message): string { m.info.sender }

  // ---------------------------------------------------------------------
  // What an entry holds

  /** `sender.split(' ').map(n => n[0]).join('').slice(0, 2)`: an empty
      word gives `undefined`, which joins as the empty text. */
  function Avatar(sender: string): string {
    JsSlice(FirstLetters(Split(sender, ' ')), 0, 2)
  }

  /** The avatar is `generateInitials` without the capitalisation. */
  lemma AvatarIsUncapitalisedInitials(sender: string)
    ensures GenerateInitials(sender) == ToUpper(Avatar(sender))
  {
    var letters := FirstLetters(Split(sender, ' '));
    var n := if |letters| < 2 then |letters| else 2;
    assert JsSlice(letters, 0, 2) == letters[..n];
    assert JsSlice(ToUpper(letters), 0, 2) == ToUpper(letters)[..n];
    assert ToUpper(letters[..n]) == ToUpper(letters)[..n];
  }

  /** Position of the latest message of `s`: none is later, and every
      earlier one is strictly earlier, since the update's strict `>` keeps
      the first of equal timestamps. */
  function LatestIndex(s: seq<Message>): (i: nat)
    requires s != []
    ensures i < |s|
    ensures forall j :: 0 <= j < |s| ==> s[j].info.timestamp <= s[i].info.timestamp
    ensures forall j :: 0 <= j < i ==> s[j].info.timestamp < s[i].info.timestamp
  {
    if |s| == 1 then 0
    else
      var k := LatestIndex(s[..|s| - 1]);
      if s[|s| - 1].info.timestamp > s[k].info.timestamp then |s| - 1 else k
  }

  /** `m.threadId === id && !m.read`. */
  function UnreadIn(id: string): Message -> bool {
    (m: Message) => m.info.threadId == id && !m.info.read
  }

  /** `m.threadId === id && m.priority === 'urgent'`. */
  function UrgentIn(id: string): Message -> bool {
    (m: Message) => m.info.threadId == id && m.info.priority == Priority.Urgent
  }

  /** `messages.some(m => m.threadId === id && m.priority === 'urgent')`. */
  function AnyUrgent(ms: seq<Message>, id: string): (b: bool)
    ensures b <==> exists i :: 0 <= i < |ms| && ms[i].info.threadId == id && ms[i].info.priority == Priority.Urgent
  {
    var r := Filter(ms, UrgentIn(id));
    assert r != [] ==> r[0] in ms && UrgentIn(id)(r[0]);
    r != []
  }

  /** `unreadCount`: the unread messages of the thread, over the whole
      list. */
  function UnreadInThread(ms: seq<Message>, id: string): nat {
    |Filter(ms, UnreadIn(id))|
  }

  /** The entry a thread's first message creates. */
  function NewEntry(ms: seq<Message>, m: Message): Thread {
    var id := m.info.threadId;
    Thread(id, [m.info.sender], m.info.content, m.info.timestamp,
           UnreadInThread(ms, id), AnyUrgent(ms, id), m.info.priority, Avatar(m.info.sender))
  }

  /** A later message of the thread: a new sender joins the participants,
      and a strictly later message becomes the last one. */
  function Updated(t: Thread, m: Message): Thread {
    var t1 := if m.info.sender in t.participants then t else t.(participants := t.participants + [m.info.sender]);
    if m.info.timestamp > t1.lastMessageTime
    then t1.(lastMessage := m.info.content, lastMessageTime := m.info.timestamp, priority := m.info.priority)
    else t1
  }

  /** The entry after the reduce has read the messages `t` of one thread:
      created by the first, updated by each of the others. */
  function Fold(ms: seq<Message>, t: seq<Message>): Thread
    requires t != []
  {
    if |t| == 1 then NewEntry(ms, t[0]) else Updated(Fold(ms, t[..|t| - 1]), t[|t| - 1])
  }

  /** The entry for `id` once the reduce has read `seen`, a prefix of the
      whole list `ms`. */
  function Entry(ms: seq<Message>, seen: seq<Message>, id: string): (e: Thread)
    requires MessagesInThread(seen, id) != []
    ensures e.id == id
  {
    FoldFixed(ms, MessagesInThread(seen, id));
    Fold(ms, MessagesInThread(seen, id))
  }

  /** What the entry of a thread whose messages are `t` holds, stated
      directly: its id, its senders each once in order of first appearance,
      the content, time and priority of its latest message (the first of
      equal timestamps), and the counts and the avatar fixed at creation. */
  function Summary(ms: seq<Message>, t: seq<Message>): Thread
    requires t != []
  {
    var last := t[LatestIndex(t)];
    Thread(t[0].info.threadId, Distinct(Map(t, Sender)), last.info.content, last.info.timestamp,
           UnreadInThread(ms, t[0].info.threadId), AnyUrgent(ms, t[0].info.threadId),
           last.info.priority, Avatar(t[0].info.sender))
  }

  /** The fold keeps the senders, each once, in order of first
      appearance. */
  lemma {:induction false} FoldParticipants(ms: seq<Message>, t: seq<Message>)
    requires t != []
    ensures Fold(ms, t).participants == Distinct(Map(t, Sender))
  {
    if |t| == 1 {
      assert Map(t, Sender) == [t[0].info.sender];
    } else {
      FoldParticipants(ms, t[..|t| - 1]);
      MapInit(t, Sender);
    }
  }

  /** The fold holds the content, time and priority of the latest message,
      the first of equal timestamps. */
  lemma {:induction false} FoldLatest(ms: seq<Message>, t: seq<Message>)
    requires t != []
    ensures var e, last := Fold(ms, t), t[LatestIndex(t)];
            e.lastMessage == last.info.content && e.lastMessageTime == last.info.timestamp &&
            e.priority == last.info.priority
  {
    if |t| > 1 {
      FoldLatest(ms, t[..|t| - 1]);
    }
  }

  /** The id, the counts and the avatar are those of the first message's
      thread and sender. */
  lemma {:induction false} FoldFixed(ms: seq<Message>, t: seq<Message>)
    requires t != []
    ensures var e, id := Fold(ms, t), t[0].info.threadId;
            e.id == id && e.unreadCount == UnreadInThread(ms, id) && e.isUrgent == AnyUrgent(ms, id) &&
            e.avatar == Avatar(t[0].info.sender)
  {
    if |t| > 1 {
      FoldFixed(ms, t[..|t| - 1]);
    }
  }

  /** Folding a thread's messages gives its summary. */
  lemma FoldMeaning(ms: seq<Message>, t: seq<Message>)
    requires t != []
    ensures Fold(ms, t) == Summary(ms, t)
  {
    FoldParticipants(ms, t);
    FoldLatest(ms, t);
    FoldFixed(ms, t);
  }

  /** The participants are the thread's senders, each once. */
  lemma SendersOnce(t: seq<Message>)
    ensures NoDuplicates(Distinct(Map(t, Sender)))
    ensures forall s :: s in Distinct(Map(t, Sender)) <==> exists i :: 0 <= i < |t| && t[i].info.sender == s
  {
    var senders := Map(t, Sender);
    forall s ensures s in Distinct(senders) <==> exists i :: 0 <= i < |t| && t[i].info.sender == s {
      if s in senders {
        var k :| 0 <= k < |senders| && senders[k] == s;
        assert t[k].info.sender == s;
      }
      if exists i :: 0 <= i < |t| && t[i].info.sender == s {
        var i :| 0 <= i < |t| && t[i].info.sender == s;
        assert senders[i] == s;
      }
    }
  }

  /** The unread count over the whole list is the thread's own. */
  lemma UnreadOfThread(ms: seq<Message>, id: string)
    ensures UnreadInThread(ms, id) == UnreadCount(MessagesInThread(ms, id))
  {
    var inThread := (m: Message) => m.info.threadId == id;
    WithKeyIsFilter(ms, MessageThread, id, inThread);
    FilterFilter(ms, inThread, IsUnread, UnreadIn(id));
  }

  /** The urgency over the whole list is the thread's own. */
  lemma UrgencyOfThread(ms: seq<Message>, id: string)
    ensures var t := MessagesInThread(ms, id);
            AnyUrgent(ms, id) <==> exists i :: 0 <= i < |t| && t[i].info.priority == Priority.Urgent
  {
    var t := MessagesInThread(ms, id);
    if AnyUrgent(ms, id) {
      var i :| 0 <= i < |ms| && ms[i].info.threadId == id && ms[i].info.priority == Priority.Urgent;
      assert ms[i] in t;
      var j :| 0 <= j < |t| && t[j] == ms[i];
      assert t[j].info.priority == Priority.Urgent;
    }
    if exists i :: 0 <= i < |t| && t[i].info.priority == Priority.Urgent {
      var i :| 0 <= i < |t| && t[i].info.priority == Priority.Urgent;
      var j :| 0 <= j < |ms| && ms[j] == t[i];
      assert ms[j].info.threadId == id;
    }
  }

  /** The finished entry of a thread says what the page shows about it:
      the participants are its senders, each once in order of first
      appearance; the last message is its latest, the first of equal
      timestamps; the unread count and the urgency cover the thread. */
  lemma EntryMeaning(ms: seq<Message>, id: string)
    requires MessagesInThread(ms, id) != []
    ensures var e := Entry(ms, ms, id);
            var t := MessagesInThread(ms, id);
            e.id == id &&
            NoDuplicates(e.participants) &&
            (forall s :: s in e.participants <==> exists i :: 0 <= i < |t| && t[i].info.sender == s) &&
            (exists i :: 0 <= i < |t| && e.lastMessage == t[i].info.content && e.lastMessageTime == t[i].info.timestamp &&
                         e.priority == t[i].info.priority &&
                         (forall j :: 0 <= j < i ==> t[j].info.timestamp < e.lastMessageTime)) &&
            (forall j :: 0 <= j < |t| ==> t[j].info.timestamp <= e.lastMessageTime) &&
            e.unreadCount == UnreadCount(t) &&
            (e.isUrgent <==> exists i :: 0 <= i < |t| && t[i].info.priority == Priority.Urgent) &&
            e.avatar == Avatar(t[0].info.sender)
  {
    var t := MessagesInThread(ms, id);
    FoldMeaning(ms, t);
    var e := Summary(ms, t);
    assert Entry(ms, ms, id) == e;
    assert t[0].info.threadId == id;
    SendersOnce(t);
    UnreadOfThread(ms, id);
    UrgencyOfThread(ms, id);
    var i := LatestIndex(t);
    assert e.lastMessage == t[i].info.content && e.lastMessageTime == t[i].info.timestamp;
  }

  // ---------------------------------------------------------------------
  // Key order of `Object.values`

  /** A key JavaScript treats as an array index: the canonical decimal
      form of a number below 2^32 - 1. */
  predicate IsArrayIndex(k: string) {
    k != [] && (forall i :: 0 <= i < |k| ==> IsDigit(k[i])) && (k[0] != '0' || |k| == 1) &&
    DecimalValue(k) < 0xFFFF_FFFF
  }

  predicate NotArrayIndex(k: string) { !IsArrayIndex(k) }

  function IndexValue(k: string): int {
    if IsArrayIndex(k) then DecimalValue(k) else 0
  }

  /** The order in which `Object.values` lists an object's own keys:
      array indices first, ascending, then the other keys in the order they
      were created. */
  function EnumerationOrder(keys: seq<string>): (r: seq<string>)
    ensures multiset(r) == multiset(keys)
    ensures forall i, j :: 0 <= i < j < |r| && IsArrayIndex(r[j]) ==>
              IsArrayIndex(r[i]) && IndexValue(r[i]) <= IndexValue(r[j])
  {
    var indices := Filter(keys, IsArrayIndex);
    var sorted := SortByKey(indices, IndexValue);
    var others := Filter(keys, NotArrayIndex);
    FilterPartition(keys, IsArrayIndex, NotArrayIndex);
    forall i | 0 <= i < |sorted| ensures IsArrayIndex(sorted[i]) {
      assert sorted[i] in multiset(indices);
    }
    sorted + others
  }

  /** Keys that are not array indices keep their creation order. */
  lemma EnumerationOrderOfNames(keys: seq<string>)
    requires forall i :: 0 <= i < |keys| ==> !IsArrayIndex(keys[i])
    ensures EnumerationOrder(keys) == keys
  {
    FilterNone(keys, IsArrayIndex);
    FilterKeepsAll(keys, NotArrayIndex);
  }

  // ---------------------------------------------------------------------
  // The thread list

  /** The entries for `keys`, in that order. */
  function Entries(ms: seq<Message>, keys: seq<string>): (r: seq<Thread>)
    requires forall i :: 0 <= i < |keys| ==> MessagesInThread(ms, keys[i]) != []
    ensures |r| == |keys|
    ensures forall i :: 0 <= i < |keys| ==> r[i] == Entry(ms, ms, keys[i])
  {
    seq(|keys|, i requires 0 <= i < |keys| => Entry(ms, ms, keys[i]))
  }

  /** The thread ids in the order their first message appears. */
  function ThreadIds(ms: seq<Message>): (r: seq<string>)
    ensures NoDuplicates(r)
    ensures forall i :: 0 <= i < |r| ==> MessagesInThread(ms, r[i]) != []
    ensures forall k :: k in r <==> k in Map(ms, MessageThread)
  {
    var r := Distinct(Map(ms, MessageThread));
    forall i | 0 <= i < |r| ensures MessagesInThread(ms, r[i]) != [] {
      assert r[i] in Map(ms, MessageThread);
      var j :| 0 <= j < |ms| && Map(ms, MessageThread)[j] == r[i];
      assert ms[j] in MessagesInThread(ms, r[i]);
    }
    forall k | k in Map(ms, MessageThread) ensures k in r {
      var j :| 0 <= j < |ms| && Map(ms, MessageThread)[j] == k;
    }
    r
  }

  /** The thread ids in the order `Object.values` lists the accumulator:
      each id of the messages once, and nothing else. */
  function ThreadKeys(ms: seq<Message>): (r: seq<string>)
    ensures NoDuplicates(r)
    ensures forall i :: 0 <= i < |r| ==> MessagesInThread(ms, r[i]) != []
    ensures forall k :: k in r <==> k in Map(ms, MessageThread)
  {
    var ids := ThreadIds(ms);
    var r := EnumerationOrder(ids);
    PermutationKeepsNoDuplicates(ids, r);
    forall i | 0 <= i < |r| ensures MessagesInThread(ms, r[i]) != [] {
      assert r[i] in multiset(ids);
    }
    forall k ensures k in r <==> k in ids {
      assert k in r <==> k in multiset(r);
      assert k in ids <==> k in multiset(ids);
    }
    r
  }

  /** `messageThreads`: the entries in `Object.values` order, then sorted
      by `lastMessageTime`, newest first. */
  function ThreadList(ms: seq<Message>): seq<Thread> {
    SortByDate(Entries(ms, ThreadKeys(ms)), ThreadTime, false)
  }

  /** The accumulator after reading `seen`: its keys are the thread ids
      met so far, in creation order, and each entry is that thread's. */
  ghost predicate Accumulated(ms: seq<Message>, seen: seq<Message>, acc: map<string, Thread>, order: seq<string>) {
    order == Distinct(Map(seen, MessageThread)) &&
    (forall k :: k in acc <==> k in order) &&
    (forall k :: k in acc ==> MessagesInThread(seen, k) != [] && acc[k] == Entry(ms, seen, k))
  }

  lemma MapSnoc<T, U>(s: seq<T>, x: T, f: T -> U)
    ensures Map(s + [x], f) == Map(s, f) + [f(x)]
  {
  }

  lemma MapInit<T, U>(s: seq<T>, f: T -> U)
    requires s != []
    ensures Map(s, f)[..|s| - 1] == Map(s[..|s| - 1], f)
  {
  }

  /** A message of another thread leaves an entry as it was. */
  lemma EntryOtherThread(ms: seq<Message>, seen: seq<Message>, m: Message, j: string)
    requires j != m.info.threadId && MessagesInThread(seen, j) != []
    ensures MessagesInThread(seen + [m], j) == MessagesInThread(seen, j)
    ensures Entry(ms, seen + [m], j) == Entry(ms, seen, j)
  {
    WithKeySnoc(seen, m, MessageThread, j);
  }

  /** A further message of a thread updates its entry. */
  lemma EntryOwnThread(ms: seq<Message>, seen: seq<Message>, m: Message)
    requires MessagesInThread(seen, m.info.threadId) != []
    ensures var k := m.info.threadId;
            MessagesInThread(seen + [m], k) != [] && Entry(ms, seen + [m], k) == Updated(Entry(ms, seen, k), m)
  {
    var k := m.info.threadId;
    WithKeySnoc(seen, m, MessageThread, k);
    var t := MessagesInThread(seen, k);
    var t' := t + [m];
    assert t'[..|t'| - 1] == t;
  }

  /** The first message of a thread creates its entry. */
  lemma EntryNewThread(ms: seq<Message>, seen: seq<Message>, m: Message)
    requires MessagesInThread(seen, m.info.threadId) == []
    ensures var k := m.info.threadId;
            MessagesInThread(seen + [m], k) == [m] && Entry(ms, seen + [m], k) == NewEntry(ms, m)
  {
    WithKeySnoc(seen, m, MessageThread, m.info.threadId);
  }

  /** One reduce step keeps the accumulator in step with the messages
      read. */
  lemma ThreadStep(ms: seq<Message>, seen: seq<Message>, m: Message, acc: map<string, Thread>, order: seq<string>)
    requires Accumulated(ms, seen, acc, order)
    ensures var k := m.info.threadId;
            if k in acc then Accumulated(ms, seen + [m], acc[k := Updated(acc[k], m)], order)
            else Accumulated(ms, seen + [m], acc[k := NewEntry(ms, m)], order + [k])
  {
    var k := m.info.threadId;
    MapSnoc(seen, m, MessageThread);
    DistinctSnoc(Map(seen, MessageThread), k);
    var acc', order' := if k in acc then acc[k := Updated(acc[k], m)] else acc[k := NewEntry(ms, m)],
                        if k in acc then order else order + [k];
    if k in acc {
      EntryOwnThread(ms, seen, m);
    } else {
      WithKeyAbsent(seen, MessageThread, k);
      EntryNewThread(ms, seen, m);
    }
    forall j | j in acc'
      ensures MessagesInThread(seen + [m], j) != [] && acc'[j] == Entry(ms, seen + [m], j)
    {
      if j != k {
        EntryOtherThread(ms, seen, m, j);
      }
    }
    assert order' == Distinct(Map(seen + [m], MessageThread));
    assert forall j :: j in acc' <==> j in order';
    assert Accumulated(ms, seen + [m], acc', order');
  }

  /** Read off in the order of `keys`, an accumulator that has read every
      message gives the finished entries. */
  lemma ReadOff(ms: seq<Message>, acc: map<string, Thread>, order: seq<string>, keys: seq<string>, values: seq<Thread>)
    requires Accumulated(ms, ms, acc, order) && multiset(keys) == multiset(order)
    requires |values| == |keys|
    requires forall n :: 0 <= n < |keys| ==> keys[n] in acc && values[n] == acc[keys[n]]
    ensures forall n :: 0 <= n < |keys| ==> MessagesInThread(ms, keys[n]) != []
    ensures values == Entries(ms, keys)
  {
  }

  /** `Object.values` of the accumulator, listed in the order `keys`. */
  method ObjectValues(acc: map<string, Thread>, keys: seq<string>) returns (values: seq<Thread>)
    requires forall n :: 0 <= n < |keys| ==> keys[n] in acc
    ensures |values| == |keys|
    ensures forall n :: 0 <= n < |keys| ==> values[n] == acc[keys[n]]
  {
    values := [];
    var j := 0;
    while j < |keys|
      invariant 0 <= j <= |keys|
      invariant |values| == j
      invariant forall n :: 0 <= n < j ==> values[n] == acc[keys[n]]
    {
      values := values + [acc[keys[j]]];
      j := j + 1;
    }
  }

  /** The `messageThreads` computation: the reduce over the list with an
      accumulator keyed by thread id, `Object.values`, and the sort. */
  method MessageThreadList(ms: seq<Message>) returns (threads: seq<Thread>)
    ensures threads == ThreadList(ms)
    ensures forall i, j :: 0 <= i < j < |threads| ==> threads[i].lastMessageTime >= threads[j].lastMessageTime
  {
    var acc: map<string, Thread> := map[];
    var order: seq<string> := [];
    ghost var seen: seq<Message> := [];
    var i := 0;
    while i < |ms|
      invariant 0 <= i <= |ms|
      invariant seen == ms[..i]
      invariant Accumulated(ms, seen, acc, order)
    {
      var m := ms[i];
      ThreadStep(ms, seen, m, acc, order);
      PrefixSnoc(ms, i);
      var k := m.info.threadId;
      if k !in acc {
        acc := acc[k := NewEntry(ms, m)];
        order := order + [k];
      } else {
        var t := acc[k];
        if m.info.sender !in t.participants {
          t := t.(participants := t.participants + [m.info.sender]);
        }
        if m.info.timestamp > t.lastMessageTime {
          t := t.(lastMessage := m.info.content, lastMessageTime := m.info.timestamp, priority := m.info.priority);
        }
        acc := acc[k := t];
      }
      seen := seen + [m];
      i := i + 1;
    }
    PrefixAll(ms);
    var keys := EnumerationOrder(order);
    assert keys == ThreadKeys(ms);
    forall n | 0 <= n < |keys| ensures keys[n] in acc {
      assert keys[n] in multiset(order);
    }
    var values := ObjectValues(acc, keys);
    ReadOff(ms, acc, order, keys, values);
    threads := SortByDate(values, ThreadTime, false);
  }

  /** Each entry of the list is the finished entry of its own thread. */
  lemma ThreadsAreEntries(ms: seq<Message>)
    ensures forall a :: 0 <= a < |ThreadList(ms)| ==>
              MessagesInThread(ms, ThreadList(ms)[a].id) != [] &&
              ThreadList(ms)[a] == Entry(ms, ms, ThreadList(ms)[a].id)
  {
    var keys := ThreadKeys(ms);
    var values := Entries(ms, keys);
    var threads := ThreadList(ms);
    forall a | 0 <= a < |threads|
      ensures MessagesInThread(ms, threads[a].id) != [] && threads[a] == Entry(ms, ms, threads[a].id)
    {
      assert threads[a] in multiset(values);
      var n :| 0 <= n < |values| && values[n] == threads[a];
    }
  }

  /** The list holds an entry for every thread id of the messages and for
      nothing else. */
  lemma ThreadsCoverIds(ms: seq<Message>)
    ensures forall k :: k in Map(ThreadList(ms), ThreadKey) <==> k in Map(ms, MessageThread)
  {
    var keys := ThreadKeys(ms);
    var values := Entries(ms, keys);
    var threads := ThreadList(ms);
    assert Map(values, ThreadKey) == keys;
    forall k ensures k in Map(threads, ThreadKey) <==> k in keys {
      if k in Map(threads, ThreadKey) {
        MapRearranged(threads, values, ThreadKey, k);
      }
      if k in keys {
        MapRearranged(values, threads, ThreadKey, k);
      }
    }
  }

  /** No thread id appears twice in the list. */
  lemma ThreadsOnePerId(ms: seq<Message>)
    ensures NoDuplicates(Map(ThreadList(ms), ThreadKey))
  {
    var threads := ThreadList(ms);
    ThreadsAreEntries(ms);
    var ids := Map(threads, ThreadKey);
    forall a, b | 0 <= a < b < |ids| ensures ids[a] != ids[b] {
      ThreadsDistinct(ms, a, b);
    }
  }

  /** Distinct keys give distinct entries, so the sorted list has no entry
      twice. */
  lemma ThreadsDistinct(ms: seq<Message>, a: nat, b: nat)
    requires a < b < |ThreadList(ms)|
    ensures ThreadList(ms)[a] != ThreadList(ms)[b]
  {
    var keys := ThreadKeys(ms);
    var values := Entries(ms, keys);
    assert NoDuplicates(values) by {
      forall i, j | 0 <= i < j < |values| ensures values[i] != values[j] {
        assert values[i].id == keys[i] && values[j].id == keys[j];
      }
    }
    PermutationKeepsNoDuplicates(values, ThreadList(ms));
  }

  /** `currentThreadMessages`: the messages of the selected thread. */
  function CurrentThreadMessages(ms: seq<Message>, selected: string): (r: seq<Message>)
    ensures r == MessagesInThread(ms, selected)
  {
    var inThread := (m: Message) => m.info.threadId == selected;
    WithKeyIsFilter(ms, MessageThread, selected, inThread);
    Filter(ms, inThread)
  }
}
