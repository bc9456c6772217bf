/** The pure side of webhook delivery: a parsed message event, the stable sort
    by timestamp applied to a flushed batch, and the rule that decides what a
    registered chat surface does with each message of a batch. */
module Batch {
  import opened Base
  import opened Messages
  import opened ChatUi

  datatype Author = Author(displayName: Option<string>, role: string, avatar: Option<string>, id: Option<string>)

  /** A parsed `v1.conversation.message` event. The event's timestamp is an
      integer here: only its order is used. */
  datatype PostMessageRequest = PostMessageRequest(
    messageId: string,
    conversationId: string,
    endUserId: string,
    author: Author,
    content: Content,
    timestamp: int)

  // ---------------------------------------------------------------------------
  // Filtering a batch

  /** What a surface does with one message of a batch. */
  datatype Route = Dropped | Notified | Appended

  /** A condition a message of a batch may meet: carrying a given timestamp, or
      being routed a given way by the surface of a given conversation. */
  datatype Selector =
    | AtTimestamp(t: int)
    | RoutedTo(conversationId: string, endUserId: string, route: Route)

  predicate Selects(sel: Selector, m: PostMessageRequest) {
    match sel
    case AtTimestamp(t) => m.timestamp == t
    case RoutedTo(id, endUserId, r) => RouteFor(id, endUserId, DeliveryOf(m)) == r
  }

  /** The messages of `s` that `sel` selects, in their order in `s`. */
  function Filter(sel: Selector, s: seq<PostMessageRequest>): seq<PostMessageRequest> {
    if s == [] then []
    else Filter(sel, s[..|s| - 1]) + (if Selects(sel, s[|s| - 1]) then [s[|s| - 1]] else [])
  }

  lemma {:induction false} FilterConcat(sel: Selector, a: seq<PostMessageRequest>, b: seq<PostMessageRequest>)
    ensures Filter(sel, a + b) == Filter(sel, a) + Filter(sel, b)
    decreases |b|
  {
    if b == [] {
      assert a + b == a;
    } else {
      var last := b[|b| - 1];
      var tail := if Selects(sel, last) then [last] else [];
      assert (a + b)[..|a + b| - 1] == a + b[..|b| - 1];
      FilterConcat(sel, a, b[..|b| - 1]);
      calc {
        Filter(sel, a + b);
        Filter(sel, a + b[..|b| - 1]) + tail;
        Filter(sel, a) + Filter(sel, b[..|b| - 1]) + tail;
        Filter(sel, a) + Filter(sel, b);
      }
    }
  }

  lemma FilterSingle(sel: Selector, x: PostMessageRequest)
    ensures Filter(sel, [x]) == if Selects(sel, x) then [x] else []
  {
    assert [x][..0] == [];
  }

  /** A message is kept exactly when it is in the batch and selected. */
  lemma {:induction false} FilterMembers(sel: Selector, s: seq<PostMessageRequest>, x: PostMessageRequest)
    ensures x in Filter(sel, s) <==> x in s && Selects(sel, x)
    decreases |s|
  {
    if s != [] {
      FilterMembers(sel, s[..|s| - 1], x);
      assert s == s[..|s| - 1] + [s[|s| - 1]];
    }
  }

  /** A filter keeps every copy of a selected message and none of the others. */
  lemma {:induction false} FilterCount(sel: Selector, s: seq<PostMessageRequest>, x: PostMessageRequest)
    ensures multiset(Filter(sel, s))[x] == if Selects(sel, x) then multiset(s)[x] else 0
    decreases |s|
  {
    if s != [] {
      FilterCount(sel, s[..|s| - 1], x);
      assert s == s[..|s| - 1] + [s[|s| - 1]];
    }
  }

  /** Filtering keeps a batch sorted. */
  lemma {:induction false} FilterSorted(sel: Selector, s: seq<PostMessageRequest>)
    requires SortedByTimestamp(s)
    ensures SortedByTimestamp(Filter(sel, s))
    decreases |s|
  {
    if s != [] {
      var init := s[..|s| - 1];
      var last := s[|s| - 1];
      FilterSorted(sel, init);
      forall x | x in Filter(sel, init)
        ensures x.timestamp <= last.timestamp
      {
        FilterMembers(sel, init, x);
      }
    }
  }

  /** Two filters may be applied in either order. */
  lemma {:induction false} FilterCommute(a: Selector, b: Selector, s: seq<PostMessageRequest>)
    ensures Filter(a, Filter(b, s)) == Filter(b, Filter(a, s))
    decreases |s|
  {
    if s != [] {
      var init, last := s[..|s| - 1], s[|s| - 1];
      FilterCommute(a, b, init);
      FilterConcat(a, Filter(b, init), Filter(b, [last]));
      FilterConcat(b, Filter(a, init), Filter(a, [last]));
      FilterSingle(a, last);
      FilterSingle(b, last);
      assert Filter(b, s) == Filter(b, init) + Filter(b, [last]);
      assert Filter(a, s) == Filter(a, init) + Filter(a, [last]);
    }
  }

  // ---------------------------------------------------------------------------
  // Sorting a batch by timestamp

  predicate SortedByTimestamp(s: seq<PostMessageRequest>) {
    forall i, j :: 0 <= i < j < |s| ==> s[i].timestamp <= s[j].timestamp
  }

  /** Places `x` before the first message whose timestamp is not smaller. */
  function Insert(x: PostMessageRequest, s: seq<PostMessageRequest>): seq<PostMessageRequest> {
    if s == [] || x.timestamp <= s[0].timestamp then [x] + s
    else [s[0]] + Insert(x, s[1..])
  }

  /** The batch sorted by timestamp, ties kept in arrival order (Python's
      `list.sort` is stable); written as an insertion sort. */
  function SortByTimestamp(s: seq<PostMessageRequest>): seq<PostMessageRequest> {
    if s == [] then [] else Insert(s[0], SortByTimestamp(s[1..]))
  }

  lemma {:induction false} InsertPermutation(x: PostMessageRequest, s: seq<PostMessageRequest>)
    ensures multiset(Insert(x, s)) == multiset(s) + multiset{x}
    decreases |s|
  {
    if s != [] && x.timestamp > s[0].timestamp {
      InsertPermutation(x, s[1..]);
      assert s == [s[0]] + s[1..];
    }
  }

  lemma ConsSorted(y: PostMessageRequest, r: seq<PostMessageRequest>)
    requires SortedByTimestamp(r)
    requires forall k :: 0 <= k < |r| ==> y.timestamp <= r[k].timestamp
    ensures SortedByTimestamp([y] + r)
  {
    var s := [y] + r;
    forall i, j | 0 <= i < j < |s|
      ensures s[i].timestamp <= s[j].timestamp
    {
      assert s[j] == r[j - 1];
      if i > 0 {
        assert s[i] == r[i - 1];
      }
    }
  }

  lemma {:induction false} InsertSorted(x: PostMessageRequest, s: seq<PostMessageRequest>)
    requires SortedByTimestamp(s)
    ensures SortedByTimestamp(Insert(x, s))
    decreases |s|
  {
    if s == [] || x.timestamp <= s[0].timestamp {
      ConsSorted(x, s);
    } else {
      var rest := s[1..];
      var r := Insert(x, rest);
      InsertSorted(x, rest);
      InsertPermutation(x, rest);
      forall k | 0 <= k < |r|
        ensures s[0].timestamp <= r[k].timestamp
      {
        assert r[k] in multiset(r);
        if r[k] != x {
          assert r[k] in multiset(rest);
          var j :| 0 <= j < |rest| && rest[j] == r[k];
          assert rest[j] == s[j + 1];
        }
      }
      ConsSorted(s[0], r);
    }
  }

  /** The sorted batch is in non-decreasing timestamp order and holds exactly
      the messages of the batch. */
  lemma {:induction false} SortSortedPermutation(s: seq<PostMessageRequest>)
    ensures SortedByTimestamp(SortByTimestamp(s))
    ensures multiset(SortByTimestamp(s)) == multiset(s)
    decreases |s|
  {
    if s != [] {
      SortSortedPermutation(s[1..]);
      InsertSorted(s[0], SortByTimestamp(s[1..]));
      InsertPermutation(s[0], SortByTimestamp(s[1..]));
      assert s == [s[0]] + s[1..];
    }
  }

  lemma {:induction false} InsertStable(x: PostMessageRequest, s: seq<PostMessageRequest>, t: int)
    ensures Filter(AtTimestamp(t), Insert(x, s)) == Filter(AtTimestamp(t), [x] + s)
    decreases |s|
  {
    var sel := AtTimestamp(t);
    if s != [] && x.timestamp > s[0].timestamp {
      var rest := s[1..];
      var fx := if Selects(sel, x) then [x] else [];
      var fs := if Selects(sel, s[0]) then [s[0]] else [];
      assert Insert(x, s) == [s[0]] + Insert(x, rest);
      assert s == [s[0]] + rest;
      InsertStable(x, rest, t);
      FilterCons(sel, s[0], Insert(x, rest));
      FilterCons(sel, x, rest);
      FilterCons(sel, x, s);
      FilterCons(sel, s[0], rest);
      // at most one of x and s[0] carries the timestamp t
      assert fs + fx == fx + fs;
    }
  }

  /** Sorting keeps the arrival order of the messages sharing a timestamp. */
  lemma {:induction false} SortStable(s: seq<PostMessageRequest>, t: int)
    ensures Filter(AtTimestamp(t), SortByTimestamp(s)) == Filter(AtTimestamp(t), s)
    decreases |s|
  {
    if s != [] {
      var sel := AtTimestamp(t);
      SortStable(s[1..], t);
      InsertStable(s[0], SortByTimestamp(s[1..]), t);
      FilterConcat(sel, [s[0]], SortByTimestamp(s[1..]));
      FilterConcat(sel, [s[0]], s[1..]);
      assert s == [s[0]] + s[1..];
    }
  }

  lemma FilterCons(sel: Selector, x: PostMessageRequest, s: seq<PostMessageRequest>)
    ensures Filter(sel, [x] + s) == (if Selects(sel, x) then [x] else []) + Filter(sel, s)
  {
    FilterConcat(sel, [x], s);
    FilterSingle(sel, x);
  }

  lemma SortedHeadIsLeast(r: seq<PostMessageRequest>, x: PostMessageRequest)
    requires SortedByTimestamp(r) && x in r
    ensures r[0].timestamp <= x.timestamp
  {
    var j :| 0 <= j < |r| && r[j] == x;
    if j > 0 {
      assert r[0].timestamp <= r[j].timestamp;
    }
  }

  /** A message sits in every batch that agrees timestamp by timestamp with a
      batch holding it. */
  lemma AgreeingMember(r: seq<PostMessageRequest>, q: seq<PostMessageRequest>, x: PostMessageRequest)
    requires forall t :: Filter(AtTimestamp(t), r) == Filter(AtTimestamp(t), q)
    requires x in r
    ensures x in q
  {
    FilterMembers(AtTimestamp(x.timestamp), r, x);
    assert x in Filter(AtTimestamp(x.timestamp), q);
    FilterMembers(AtTimestamp(x.timestamp), q, x);
  }

  /** Two sorted batches that agree timestamp by timestamp start alike. */
  lemma SameHead(r: seq<PostMessageRequest>, q: seq<PostMessageRequest>)
    requires r != [] && q != []
    requires SortedByTimestamp(r) && SortedByTimestamp(q)
    requires forall t :: Filter(AtTimestamp(t), r) == Filter(AtTimestamp(t), q)
    ensures r[0] == q[0]
  {
    AgreeingMember(r, q, r[0]);
    AgreeingMember(q, r, q[0]);
    SortedHeadIsLeast(q, r[0]);
    SortedHeadIsLeast(r, q[0]);
    var sel := AtTimestamp(r[0].timestamp);
    assert r == [r[0]] + r[1..];
    assert q == [q[0]] + q[1..];
    FilterCons(sel, r[0], r[1..]);
    FilterCons(sel, q[0], q[1..]);
    assert Filter(sel, r)[0] == r[0];
    assert Filter(sel, q)[0] == q[0];
  }

  lemma TailAgreesAt(r: seq<PostMessageRequest>, q: seq<PostMessageRequest>, t: int)
    requires r != [] && q != [] && r[0] == q[0]
    requires Filter(AtTimestamp(t), r) == Filter(AtTimestamp(t), q)
    ensures Filter(AtTimestamp(t), r[1..]) == Filter(AtTimestamp(t), q[1..])
  {
    var sel := AtTimestamp(t);
    assert [r[0]] + r[1..] == r;
    assert [q[0]] + q[1..] == q;
    FilterCons(sel, r[0], r[1..]);
    FilterCons(sel, q[0], q[1..]);
    if Selects(sel, r[0]) {
      assert Filter(sel, r[1..]) == Filter(sel, r)[1..];
      assert Filter(sel, q[1..]) == Filter(sel, q)[1..];
    } else {
      assert Filter(sel, r[1..]) == Filter(sel, r);
      assert Filter(sel, q[1..]) == Filter(sel, q);
    }
  }

  lemma TailsAgree(r: seq<PostMessageRequest>, q: seq<PostMessageRequest>)
    requires r != [] && q != [] && r[0] == q[0]
    requires forall t :: Filter(AtTimestamp(t), r) == Filter(AtTimestamp(t), q)
    ensures forall t :: Filter(AtTimestamp(t), r[1..]) == Filter(AtTimestamp(t), q[1..])
  {
    forall t
      ensures Filter(AtTimestamp(t), r[1..]) == Filter(AtTimestamp(t), q[1..])
    {
      TailAgreesAt(r, q, t);
    }
  }

  /** Sortedness and the order within each timestamp pin a batch down: two
      sorted batches that agree timestamp by timestamp are equal. */
  lemma {:induction false} SortedUnique(r: seq<PostMessageRequest>, q: seq<PostMessageRequest>)
    requires SortedByTimestamp(r) && SortedByTimestamp(q)
    requires forall t :: Filter(AtTimestamp(t), r) == Filter(AtTimestamp(t), q)
    ensures r == q
    decreases |r|
  {
    if r != [] && q == [] {
      AgreeingMember(r, q, r[0]);
    } else if r == [] && q != [] {
      AgreeingMember(q, r, q[0]);
    } else if r != [] {
      SameHead(r, q);
      TailsAgree(r, q);
      SortedUnique(r[1..], q[1..]);
      assert r == [r[0]] + r[1..];
      assert q == [q[0]] + q[1..];
    }
  }

  /** The stable sort is the only sorted arrangement that keeps the arrival
      order within each timestamp. */
  lemma SortCharacterized(s: seq<PostMessageRequest>, r: seq<PostMessageRequest>)
    requires SortedByTimestamp(r)
    requires forall t :: Filter(AtTimestamp(t), r) == Filter(AtTimestamp(t), s)
    ensures r == SortByTimestamp(s)
  {
    SortSortedPermutation(s);
    forall t
      ensures Filter(AtTimestamp(t), r) == Filter(AtTimestamp(t), SortByTimestamp(s))
    {
      SortStable(s, t);
    }
    SortedUnique(r, SortByTimestamp(s));
  }

  /** Picking one surface's messages out of the sorted batch gives those
      messages sorted: what a surface receives from a flush is its own part of
      the batch in stable timestamp order. */
  lemma FilterOfSorted(sel: Selector, s: seq<PostMessageRequest>)
    ensures Filter(sel, SortByTimestamp(s)) == SortByTimestamp(Filter(sel, s))
  {
    var lhs := Filter(sel, SortByTimestamp(s));
    SortSortedPermutation(s);
    FilterSorted(sel, SortByTimestamp(s));
    forall t
      ensures Filter(AtTimestamp(t), lhs) == Filter(AtTimestamp(t), Filter(sel, s))
    {
      FilterCommute(AtTimestamp(t), sel, SortByTimestamp(s));
      SortStable(s, t);
      FilterCommute(AtTimestamp(t), sel, s);
    }
    SortCharacterized(Filter(sel, s), lhs);
  }

  // ---------------------------------------------------------------------------
  // Routing a message to a surface

  /** The arguments the batch loop passes on for one message: conversation id,
      author id, role, content, display name and avatar. */
  datatype Delivery = Delivery(
    conversationId: string,
    userId: Option<string>,
    role: string,
    content: Content,
    displayName: Option<string>,
    avatar: Option<string>)

  function DeliveryOf(m: PostMessageRequest): Delivery {
    Delivery(m.conversationId, m.author.id, m.author.role, m.content, m.author.displayName, m.author.avatar)
  }

  /** What the surface of conversation `id`, whose end user is `endUserId`,
      does with a delivery: nothing when it is for another conversation or
      is the surface's own end user's message coming back; a notification for
      presence; otherwise one new message. */
  function RouteFor(id: string, endUserId: string, d: Delivery): Route {
    if d.conversationId != id || d.userId == Some(endUserId) then Dropped
    else if d.content.IsPresence() then Notified
    else Appended
  }

  /** The message list entry a delivery becomes. */
  function MessageOf(d: Delivery): Message {
    Message(d.role, d.content, d.userId, d.displayName, d.avatar)
  }

  /** The body a notification shows. Only presence content is notified, and
      presence content is always text, so the link case is never reached. */
  function BodyOf(c: Content): string {
    match c
    case Text(body, _) => body
    case Link(_, _) => ""
  }

  /** The messages a batch appends to the surface of `id`, in batch order. */
  function Timeline(id: string, endUserId: string, b: seq<PostMessageRequest>): seq<Message> {
    var s := Filter(RoutedTo(id, endUserId, Appended), b);
    seq(|s|, k requires 0 <= k < |s| => MessageOf(DeliveryOf(s[k])))
  }

  /** The notification texts a batch sends to the surface of `id`, in batch order. */
  function Notices(id: string, endUserId: string, b: seq<PostMessageRequest>): seq<string> {
    var s := Filter(RoutedTo(id, endUserId, Notified), b);
    seq(|s|, k requires 0 <= k < |s| => BodyOf(s[k].content))
  }

  /** A surface gets a new message for a batch entry exactly when the entry is
      for its conversation, is not its own end user's message, and is not
      presence; a notification exactly when it is presence under the same
      conditions. */
  lemma RoutedIff(id: string, endUserId: string, b: seq<PostMessageRequest>, m: PostMessageRequest)
    ensures m in Filter(RoutedTo(id, endUserId, Appended), b) <==>
      m in b && m.conversationId == id && m.author.id != Some(endUserId) && !m.content.IsPresence()
    ensures m in Filter(RoutedTo(id, endUserId, Notified), b) <==>
      m in b && m.conversationId == id && m.author.id != Some(endUserId) && m.content.IsPresence()
  {
    FilterMembers(RoutedTo(id, endUserId, Appended), b, m);
    FilterMembers(RoutedTo(id, endUserId, Notified), b, m);
  }

  /** No message a surface shows was authored by its own end user, and every
      one is a text or link message. */
  lemma NoSelfEcho(id: string, endUserId: string, b: seq<PostMessageRequest>)
    ensures forall k :: 0 <= k < |Timeline(id, endUserId, b)| ==>
      Timeline(id, endUserId, b)[k].userId != Some(endUserId) && !Timeline(id, endUserId, b)[k].content.IsPresence()
  {
    var s := Filter(RoutedTo(id, endUserId, Appended), b);
    forall k | 0 <= k < |s|
      ensures s[k].author.id != Some(endUserId) && !s[k].content.IsPresence()
    {
      FilterMembers(RoutedTo(id, endUserId, Appended), b, s[k]);
    }
  }

  /** Each message of a batch is handled exactly once by each surface: it is
      dropped, notified or appended, and the three parts together are the batch. */
  lemma RoutesPartition(id: string, endUserId: string, b: seq<PostMessageRequest>)
    ensures multiset(Filter(RoutedTo(id, endUserId, Dropped), b))
          + multiset(Filter(RoutedTo(id, endUserId, Notified), b))
          + multiset(Filter(RoutedTo(id, endUserId, Appended), b)) == multiset(b)
  {
    forall x
      ensures (multiset(Filter(RoutedTo(id, endUserId, Dropped), b))
             + multiset(Filter(RoutedTo(id, endUserId, Notified), b))
             + multiset(Filter(RoutedTo(id, endUserId, Appended), b)))[x] == multiset(b)[x]
    {
      FilterCount(RoutedTo(id, endUserId, Dropped), b, x);
      FilterCount(RoutedTo(id, endUserId, Notified), b, x);
      FilterCount(RoutedTo(id, endUserId, Appended), b, x);
    }
  }

  /** Delivering two batches one after the other gives a surface what
      delivering their concatenation gives it. */
  lemma TimelineConcat(id: string, endUserId: string, a: seq<PostMessageRequest>, b: seq<PostMessageRequest>)
    ensures Timeline(id, endUserId, a + b) == Timeline(id, endUserId, a) + Timeline(id, endUserId, b)
    ensures Notices(id, endUserId, a + b) == Notices(id, endUserId, a) + Notices(id, endUserId, b)
  {
    FilterConcat(RoutedTo(id, endUserId, Appended), a, b);
    FilterConcat(RoutedTo(id, endUserId, Notified), a, b);
  }

  /** One more message of a batch adds at most one entry to a surface's
      message list or notifications, as its route says. */
  lemma TimelineStep(id: string, endUserId: string, s: seq<PostMessageRequest>, m: PostMessageRequest)
    ensures var route := RouteFor(id, endUserId, DeliveryOf(m));
      && Timeline(id, endUserId, s + [m]) == Timeline(id, endUserId, s) + (if route == Appended then [MessageOf(DeliveryOf(m))] else [])
      && Notices(id, endUserId, s + [m]) == Notices(id, endUserId, s) + (if route == Notified then [BodyOf(m.content)] else [])
  {
    assert (s + [m])[..|s|] == s;
  }
}
