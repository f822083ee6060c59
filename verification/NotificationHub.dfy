/** The notification hub: a bounded history per order, replay for late subscribers and live fan-out,
    each operation under the hub's lock and hence atomic. */
module NotificationHub {
  import opened Domain
  import opened Text

  const HISTORY: nat := 100
  const CAPACITY: nat := 16

  /** The last n elements. */
  function LastOf(s: seq<Envelope>, n: nat): seq<Envelope> {
    if |s| > n then s[|s| - n..] else s
  }

  /** Appending and cutting a cut history gives the cut of the whole stream. */
  lemma {:induction false} LastOfAppend(s: seq<Envelope>, e: Envelope, n: nat)
    requires n > 0
    ensures LastOf(LastOf(s, n) + [e], n) == LastOf(s + [e], n)
  {
  }

  /** s is t with some elements left out. */
  predicate Subsequence(s: seq<Envelope>, t: seq<Envelope>) {
    if s == [] then true
    else if t == [] then false
    else (s[|s| - 1] == t[|t| - 1] && Subsequence(s[..|s| - 1], t[..|t| - 1])) || Subsequence(s, t[..|t| - 1])
  }

  lemma {:induction false} SubsequenceSelf(s: seq<Envelope>)
    ensures Subsequence(s, s)
  {
    if s == [] {
    } else {
      SubsequenceSelf(s[..|s| - 1]);
    }
  }

  lemma {:induction false} SubsequencePrefix(p: seq<Envelope>, s: seq<Envelope>, t: seq<Envelope>)
    requires Subsequence(s, t)
    ensures Subsequence(p + s, p + t)
  {
    if t == [] {
      assert p + s == p && p + t == p;
      SubsequenceSelf(p);
    } else if s == [] {
      SubsequencePrefix(p, s, t[..|t| - 1]);
      assert (p + t)[..|p + t| - 1] == p + t[..|t| - 1];
      if p + s != [] { assert Subsequence(p + s, (p + t)[..|p + t| - 1]); }
    } else {
      assert (p + t)[..|p + t| - 1] == p + t[..|t| - 1];
      assert (p + s)[..|p + s| - 1] == p + s[..|s| - 1];
      if s[|s| - 1] == t[|t| - 1] && Subsequence(s[..|s| - 1], t[..|t| - 1]) {
        SubsequencePrefix(p, s[..|s| - 1], t[..|t| - 1]);
      } else {
        SubsequencePrefix(p, s, t[..|t| - 1]);
      }
    }
  }

  /** What offering e does to a channel: appended when there is room, dropped and noted when not. */
  predicate Offered(before: seq<Envelope>, lostBefore: bool, e: Envelope, after: seq<Envelope>, lost: bool) {
    if |before| < CAPACITY then after == before + [e] && lost == lostBefore
    else after == before && lost
  }

  /** The text a subscriber or a publisher names an order by: a UUID has one canonical spelling, which
      publish uses, and others, such as capitals, that subscribe passes on as they come. */
  datatype Key = Key(id: Id, spelling: nat)

  function Canonical(id: Id): Key { Key(id, 0) }

  /** A buffered Go channel. Sending on a closed channel panics, so Send demands an open one. The
      ghost fields record what was sent on it, from which point of its order's stream on, and
      whether a full buffer ever lost an event. */
  class Channel {
    const key: Key
    ghost const start: nat
    var buffer: seq<Envelope>
    var closed: bool
    ghost var sent: seq<Envelope>
    ghost var received: seq<Envelope>
    ghost var lost: bool

    constructor (key: Key, ghost start: nat)
      ensures this.key == key && this.start == start
      ensures buffer == [] && !closed && sent == [] && received == [] && !lost
    {
      this.key, this.start := key, start;
      buffer, closed, sent, received, lost := [], false, [], [], false;
    }

    /** A send that gives up when the buffer is full. */
    method Offer(e: Envelope, ghost stream: seq<Envelope>)
      requires !closed && Follows(stream)
      modifies this
      ensures !closed && received == old(received) && Follows(stream + [e])
      ensures Offered(old(buffer), old(lost), e, buffer, lost)
      ensures if |old(buffer)| < 16 then buffer == old(buffer) + [e] && lost == old(lost)
              else buffer == old(buffer) && lost
    {
      FollowsStep(sent, stream, start, e);
      if |buffer| < CAPACITY {
        buffer := buffer + [e];
        sent := sent + [e];
      } else {
        lost := true;
      }
    }

    method Receive() returns (e: Envelope)
      requires buffer != []
      modifies this
      ensures old(buffer) == [e] + buffer && received == old(received) + [e]
      ensures closed == old(closed) && sent == old(sent) && lost == old(lost)
    {
      e := buffer[0];
      buffer := buffer[1..];
      received := received + [e];
    }

    method Close()
      requires !closed
      modifies this
      ensures closed && buffer == old(buffer) && sent == old(sent) && received == old(received) && lost == old(lost)
    {
      closed := true;
    }

    /** What the channel carried is what its order's stream published since the subscription, in
        order: all of it unless the buffer was full at some send, and never anything else. */
    ghost predicate Follows(stream: seq<Envelope>)
      reads this
    {
      && |buffer| <= CAPACITY && sent == received + buffer && start <= |stream|
      && Subsequence(sent, stream[start..])
      && (!lost ==> sent == stream[start..])
    }

    /** An open subscription under this key. */
    ghost predicate Live(k: Key, stream: seq<Envelope>)
      reads this
    {
      key == k && !closed && Follows(stream)
    }
  }

  lemma {:induction false} FollowsStep(sent: seq<Envelope>, stream: seq<Envelope>, start: nat, e: Envelope)
    requires start <= |stream| && Subsequence(sent, stream[start..])
    ensures (stream + [e])[start..] == stream[start..] + [e]
    ensures Subsequence(sent, (stream + [e])[start..]) && Subsequence(sent + [e], (stream + [e])[start..])
  {
  }

  /** A map entry, or nothing. */
  function EventsAt(m: map<Key, seq<Envelope>>, id: Key): seq<Envelope> {
    if id in m then m[id] else []
  }

  function ChannelsAt(m: map<Key, set<Channel>>, id: Key): set<Channel> {
    if id in m then m[id] else {}
  }

  ghost predicate HistoryOk(history: map<Key, seq<Envelope>>, stream: map<Key, seq<Envelope>>) {
    forall id :: EventsAt(history, id) == LastOf(EventsAt(stream, id), HISTORY)
  }

  lemma {:induction false} HistoryOne(history: map<Key, seq<Envelope>>, stream: map<Key, seq<Envelope>>, id: Key,
                                      e: Envelope)
    requires HistoryOk(history, stream)
    ensures LastOf(EventsAt(history, id) + [e], HISTORY) == LastOf(EventsAt(stream, id) + [e], HISTORY)
  {
    LastOfAppend(EventsAt(stream, id), e, HISTORY);
  }

  lemma {:induction false} HistoryStep(history: map<Key, seq<Envelope>>, stream: map<Key, seq<Envelope>>, id: Key,
                                       e: Envelope)
    requires HistoryOk(history, stream)
    ensures HistoryOk(history[id := LastOf(EventsAt(history, id) + [e], HISTORY)],
              stream[id := EventsAt(stream, id) + [e]])
  {
    LastOfAppend(EventsAt(stream, id), e, HISTORY);
    var history', stream' := history[id := LastOf(EventsAt(history, id) + [e], HISTORY)],
      stream[id := EventsAt(stream, id) + [e]];
    forall x ensures EventsAt(history', x) == LastOf(EventsAt(stream', x), HISTORY) {
      assert EventsAt(history, x) == LastOf(EventsAt(stream, x), HISTORY);
    }
  }

  /** Index of the first event with this ID. */
  ghost predicate FirstAt(events: seq<Envelope>, id: Id, k: nat) {
    k < |events| && events[k].eventId == id && forall i :: 0 <= i < k ==> events[i].eventId != id
  }

  /** What a client that names the last event it has seen is to be replayed: everything after the
      first event with that ID, the whole history when it names none, and nothing when the ID is not
      retained. */
  ghost predicate IsReplay(items: seq<Envelope>, last: Option<Id>, replay: seq<Envelope>) {
    && (last.None? ==> replay == items)
    && (forall k :: last.Some? && FirstAt(items, last.value, k) ==> replay == items[k + 1..])
    && (last.Some? && (forall i :: 0 <= i < |items| ==> items[i].eventId != last.value) ==> replay == [])
  }

  /** The loop over the history that subscribe runs under its lock. */
  method ReplayAfter(items: seq<Envelope>, last: Option<Id>) returns (replay: seq<Envelope>)
    ensures IsReplay(items, last, replay)
  {
    replay := [];
    var seen := last.None?;
    ghost var from := 0;
    for i := 0 to |items|
      invariant last.None? ==> seen && replay == items[..i]
      invariant last.Some? && !seen ==> replay == [] && forall j :: 0 <= j < i ==> items[j].eventId != last.value
      invariant last.Some? && seen ==> from < i && FirstAt(items, last.value, from) && replay == items[from + 1..i]
    {
      if seen {
        replay := replay + [items[i]];
      } else if items[i].eventId == last.value {
        seen := true;
        from := i;
      }
    }
  }

  /** The send to every subscriber: one attempt each, in no particular order. */
  method FanOut(channels: set<Channel>, e: Envelope, ghost before: seq<Envelope>)
    requires forall ch :: ch in channels ==> !ch.closed && ch.Follows(before)
    modifies channels
    ensures forall ch :: ch in channels ==> !ch.closed && ch.Follows(before + [e])
    ensures forall ch :: ch in channels ==> Offered(old(ch.buffer), old(ch.lost), e, ch.buffer, ch.lost)
  {
    hide *;
    var todo := channels;
    while todo != {}
      invariant todo <= channels
      invariant forall ch :: ch in todo ==>
                  !ch.closed && ch.Follows(before) && ch.buffer == old(ch.buffer) && ch.lost == old(ch.lost)
      invariant forall ch :: ch in channels - todo ==> !ch.closed && ch.Follows(before + [e])
      invariant forall ch :: ch in channels - todo ==> Offered(old(ch.buffer), old(ch.lost), e, ch.buffer, ch.lost)
      decreases todo
    {
      var ch :| ch in todo;
      ch.Offer(e, before);
      todo := todo - {ch};
    }
  }

  class Hub {
    var history: map<Key, seq<Envelope>>
    var subscribers: map<Key, set<Channel>>
    ghost var stream: map<Key, seq<Envelope>>   // everything ever published, by order

    constructor ()
      ensures Valid() && stream == map[] && subscribers == map[]
    {
      history, subscribers, stream := map[], map[], map[];
    }

    ghost function Channels(): set<Channel>
      reads this
    {
      set id, ch | id in subscribers && ch in subscribers[id] :: ch
    }

    /** Each order's history is the last hundred events of its stream, kept under its canonical key,
        and every subscriber is open and follows the stream of its key. */
    ghost predicate Valid()
      reads this, Channels()
    {
      && HistoryOk(history, stream) && (forall k :: k in stream ==> k.spelling == 0)
      && (forall id, ch {:trigger ch in subscribers[id]} :: id in subscribers && ch in subscribers[id] ==>
            ch in Channels() && ch.Live(id, EventsAt(stream, id)))
    }

    method Publish(e: Envelope)
      requires Valid()
      modifies this, ChannelsAt(subscribers, Canonical(e.aggregateId))
      ensures Valid() && subscribers == old(subscribers)
      ensures var id := Canonical(e.aggregateId); stream == old(stream)[id := EventsAt(old(stream), id) + [e]]
      ensures forall ch :: ch in ChannelsAt(subscribers, Canonical(e.aggregateId)) ==>
                Offered(old(ch.buffer), old(ch.lost), e, ch.buffer, ch.lost)
      ensures forall ch :: ch in ChannelsAt(subscribers, Canonical(e.aggregateId)) ==>
                if |old(ch.buffer)| < 16 then ch.buffer == old(ch.buffer) + [e] && ch.lost == old(ch.lost)
                else ch.buffer == old(ch.buffer) && ch.lost
      ensures var id := Canonical(e.aggregateId); var all := old(EventsAt(stream, id)) + [e];
              history == old(history)[id := if |all| > 100 then all[|all| - 100..] else all]
    {
      var id := Canonical(e.aggregateId);
      var items := EventsAt(history, id) + [e];
      if |items| > HISTORY {
        items := items[|items| - HISTORY..];
      }
      HistoryStep(history, stream, id, e);
      assert items == LastOf(EventsAt(history, id) + [e], HISTORY) == LastOf(EventsAt(stream, id) + [e], HISTORY) by {
        HistoryOne(history, stream, id, e);
      }
      history := history[id := items];
      FanOut(ChannelsAt(subscribers, id), e, EventsAt(stream, id));
      stream := stream[id := EventsAt(stream, id) + [e]];
      hide HistoryOk, Subsequence, LastOf;
      forall x, ch | x in subscribers && ch in subscribers[x]
        ensures ch in Channels() && ch.Live(x, EventsAt(stream, x))
      {
        assert ch in old(Channels()) && old(ch.Live(x, EventsAt(stream, x)));
        if x != id { assert unchanged(ch); }
      }
    }

    /** subscribe: registration and replay in one step. */
    method Subscribe(id: Key, last: Option<Id>) returns (ch: Channel, replay: seq<Envelope>)
      requires Valid()
      modifies this
      ensures Valid() && fresh(ch) && ch in ChannelsAt(subscribers, id) && stream == old(stream)
              && history == old(history)
      ensures subscribers == old(subscribers)[id := ChannelsAt(old(subscribers), id) + {ch}]
      ensures ch.Live(id, EventsAt(stream, id)) && ch.start == |EventsAt(stream, id)| && !ch.lost && ch.sent == []
      ensures IsReplay(EventsAt(history, id), last, replay)
    {
      ch := new Channel(id, |EventsAt(stream, id)|);
      subscribers := subscribers[id := ChannelsAt(subscribers, id) + {ch}];
      replay := ReplayAfter(EventsAt(history, id), last);
      assert ch.Follows(EventsAt(stream, id)) by { assert EventsAt(stream, id)[|EventsAt(stream, id)|..] == []; }
    }

    /** The closure subscribe returns: out of the set first, closed after, under one lock. Called once
        more, it runs into the closed channel and panics; the tables are as before. */
    method Unsubscribe(ch: Channel) returns (panics: bool)
      requires Valid() && (ch in ChannelsAt(subscribers, ch.key) || ch.closed)
      modifies this, ch
      ensures Valid() && ch.closed && stream == old(stream) && history == old(history) && panics == old(ch.closed)
      ensures ChannelsAt(subscribers, ch.key) == ChannelsAt(old(subscribers), ch.key) - {ch}
      ensures forall k :: k != ch.key ==> ChannelsAt(subscribers, k) == ChannelsAt(old(subscribers), k)
      ensures ch.buffer == old(ch.buffer) && ch.sent == old(ch.sent) && ch.received == old(ch.received)
              && ch.lost == old(ch.lost)
    {
      hide HistoryOk, Subsequence;
      if ch.key in subscribers {
        subscribers := subscribers[ch.key := subscribers[ch.key] - {ch}];
      }
      if ch.closed {
        panics := true;
      } else {
        ch.Close();
        panics := false;
      }
      forall x, other | x in subscribers && other in subscribers[x]
        ensures other in Channels() && other.Live(x, EventsAt(stream, x))
      {
        assert other in old(Channels()) && old(other.Live(x, EventsAt(stream, x)));
        assert other != ch && unchanged(other);
      }
    }

    /** The stream handler takes the next live event. */
    method Take(ch: Channel) returns (e: Envelope)
      requires Valid() && ch in ChannelsAt(subscribers, ch.key) && ch.buffer != []
      modifies ch
      ensures Valid() && ch.received == old(ch.received) + [e] && old(ch.buffer) == [e] + ch.buffer
      ensures !ch.closed && ch.sent == old(ch.sent) && ch.lost == old(ch.lost)
    {
      hide HistoryOk, Subsequence;
      assert ch.Live(ch.key, EventsAt(stream, ch.key));
      e := ch.Receive();
      forall x, other | x in subscribers && other in subscribers[x]
        ensures other in Channels() && other.Live(x, EventsAt(stream, x))
      {
        assert other in old(Channels()) && old(other.Live(x, EventsAt(stream, x)));
        if other != ch { assert unchanged(other); }
      }
    }
  }

  /** Replay and live events join without a gap. A client that reconnected after event k of the
      retained history (or, with k = -1, without naming one) and whose channel never overflowed has
      been handed exactly the stream from that event on; with losses, a subsequence of it. */
  lemma {:induction false} ReplayContinuity(stream: seq<Envelope>, later: seq<Envelope>, k: int, sent: seq<Envelope>)
    requires stream <= later && -1 <= k < |LastOf(stream, HISTORY)|
    requires Subsequence(sent, later[|stream|..])
    ensures var retained := LastOf(stream, HISTORY);
            var replay := retained[k + 1..];
            var due := later[|stream| - |retained| + k + 1..];
            && Subsequence(replay + sent, due)
            && (sent == later[|stream|..] ==> replay + sent == due)
            && (k >= 0 ==> later[|stream| - |retained| + k] == retained[k])
  {
    var retained := LastOf(stream, HISTORY);
    var replay := retained[k + 1..];
    assert replay + later[|stream|..] == later[|stream| - |retained| + k + 1..];
    SubsequencePrefix(replay, sent, later[|stream|..]);
  }

  /** A subscriber under another spelling of an order's UUID is replayed nothing and sent nothing. */
  lemma {:induction false} OtherSpellingsHearNothing(hub: Hub, ch: Channel)
    requires hub.Valid() && ch in ChannelsAt(hub.subscribers, ch.key) && ch.key.spelling != 0
    ensures EventsAt(hub.history, ch.key) == [] && ch.sent == []
  {
    assert ch.Live(ch.key, EventsAt(hub.stream, ch.key));
    assert EventsAt(hub.stream, ch.key)[ch.start..] == [];
    hide Subsequence;
    assert EventsAt(hub.history, ch.key) == LastOf(EventsAt(hub.stream, ch.key), HISTORY);
  }

  // ------------------------------------------------------------------ whole sessions

  /** A stream request: its channel, the last event it named and what it was replayed. */
  datatype Client = Client(ch: Channel, last: Option<Id>, replay: seq<Envelope>)

  /** Ghost record of a client: its order's stream when it subscribed, and as far as it followed it. */
  datatype Span = Span(before: seq<Envelope>, upto: seq<Envelope>)

  /** What is settled when a client subscribes. */
  ghost predicate Started(c: Client, before: seq<Envelope>) {
    c.ch.start == |before| && IsReplay(LastOf(before, HISTORY), c.last, c.replay)
  }

  /** The client was replayed what it should be and follows its order's stream from then on. */
  ghost predicate Served(c: Client, span: Span)
    reads c.ch
  {
    c.ch.Follows(span.upto) && Started(c, span.before) && span.before <= span.upto
  }

  /** A served client beside a hub: as long as it is open it is subscribed and up to date. */
  ghost predicate InStep(c: Client, span: Span, subscribers: map<Key, set<Channel>>, stream: map<Key, seq<Envelope>>)
    reads c.ch
  {
    && Served(c, span) && span.upto <= EventsAt(stream, c.ch.key)
    && (!c.ch.closed ==> c.ch in ChannelsAt(subscribers, c.ch.key) && span.upto == EventsAt(stream, c.ch.key))
  }

  lemma {:induction false} AllLive(hub: Hub)
    requires hub.Valid()
    ensures forall k, ch :: ch in ChannelsAt(hub.subscribers, k) ==> ch.Live(k, EventsAt(hub.stream, k))
  {
    hide HistoryOk, Channel.Follows;
  }

  lemma {:induction false} HistoryAt(hub: Hub, id: Key)
    requires hub.Valid()
    ensures EventsAt(hub.history, id) == LastOf(EventsAt(hub.stream, id), HISTORY)
  {
  }

  lemma {:induction false} StillInStep(c: Client, span: Span, was: map<Key, set<Channel>>, now: map<Key, set<Channel>>,
                                       stream: map<Key, seq<Envelope>>)
    requires InStep(c, span, was, stream)
    requires c.ch in ChannelsAt(was, c.ch.key) ==> c.ch in ChannelsAt(now, c.ch.key)
    ensures InStep(c, span, now, stream)
  {
  }

  lemma {:induction false} NewlyInStep(c: Client, subscribers: map<Key, set<Channel>>, stream: map<Key, seq<Envelope>>)
    requires var before := EventsAt(stream, c.ch.key);
             && c.ch.Live(c.ch.key, before) && c.ch.start == |before|
             && IsReplay(LastOf(before, HISTORY), c.last, c.replay)
    requires c.ch in ChannelsAt(subscribers, c.ch.key)
    ensures var before := EventsAt(stream, c.ch.key); InStep(c, Span(before, before), subscribers, stream)
  {
    hide LastOf, IsReplay, Channel.Follows;
  }

  /** What a client in step is owed: its start, and while it is open its subscription. */
  ghost predicate Subscribed(c: Client, span: Span, subscribers: map<Key, set<Channel>>,
                             stream: map<Key, seq<Envelope>>)
    reads c.ch
  {
    && Started(c, span.before) && span.before <= EventsAt(stream, c.ch.key)
    && (!c.ch.closed ==> c.ch in ChannelsAt(subscribers, c.ch.key))
  }

  lemma {:induction false} InStepFacts(c: Client, span: Span, subscribers: map<Key, set<Channel>>,
                                       stream: map<Key, seq<Envelope>>)
    requires InStep(c, span, subscribers, stream)
    ensures Subscribed(c, span, subscribers, stream)
  {
    hide Started, Channel.Follows;
  }

  /** The streams of those who left may go on. */
  lemma {:induction false} GoneInStep(c: Client, span: Span, subscribers: map<Key, set<Channel>>,
                                      was: map<Key, seq<Envelope>>, now: map<Key, seq<Envelope>>)
    requires InStep(c, span, subscribers, was) && c.ch.closed && EventsAt(was, c.ch.key) <= EventsAt(now, c.ch.key)
    ensures InStep(c, span, subscribers, now)
  {
    hide Served;
  }

  lemma {:induction false} FollowedInStep(c: Client, span: Span, subscribers: map<Key, set<Channel>>,
                                          stream: map<Key, seq<Envelope>>)
    requires Started(c, span.before) && span.before <= EventsAt(stream, c.ch.key)
    requires c.ch in ChannelsAt(subscribers, c.ch.key) && c.ch.Live(c.ch.key, EventsAt(stream, c.ch.key))
    ensures InStep(c, Span(span.before, EventsAt(stream, c.ch.key)), subscribers, stream)
  {
    hide Started, Channel.Follows;
  }

  /** k is the retained event the client resumes after; -1 when it named none. */
  ghost predicate ResumesAfter(history: seq<Envelope>, last: Option<Id>, k: int) {
    if last.None? then k == -1 else k >= 0 && FirstAt(history, last.value, k)
  }

  lemma {:induction false} ReplayIsTail(items: seq<Envelope>, last: Option<Id>, replay: seq<Envelope>, k: int)
    requires IsReplay(items, last, replay) && ResumesAfter(items, last, k)
    ensures -1 <= k < |items| && replay == items[k + 1..]
  {
  }

  /** What a served client was replayed, has taken and has waiting: the retained log after the event it
      named and up to where it followed the stream, without a gap unless its channel overflowed. */
  lemma {:induction false} ServedSeesTheStream(c: Client, span: Span, k: int)
    requires Served(c, span) && ResumesAfter(LastOf(span.before, HISTORY), c.last, k)
    ensures var seen := c.replay + (c.ch.received + c.ch.buffer);
            var due := span.upto[|span.before| - |LastOf(span.before, HISTORY)| + k + 1..];
            Subsequence(seen, due) && (!c.ch.lost ==> seen == due)
  {
    var retained, sent := LastOf(span.before, HISTORY), c.ch.sent;
    ServedFacts(c, span);
    ReplayIsTail(retained, c.last, c.replay, k);
    ReplayContinuity(span.before, span.upto, k, sent);
    hide *;
    assert c.replay + (c.ch.received + c.ch.buffer) == retained[k + 1..] + sent;
  }

  lemma {:induction false} ServedFacts(c: Client, span: Span)
    requires Served(c, span)
    ensures span.before <= span.upto && c.ch.sent == c.ch.received + c.ch.buffer
    ensures Subsequence(c.ch.sent, span.upto[|span.before|..])
    ensures !c.ch.lost ==> c.ch.sent == span.upto[|span.before|..]
    ensures IsReplay(LastOf(span.before, HISTORY), c.last, c.replay)
  {
    hide Subsequence, LastOf, IsReplay;
  }

  /** The spans after the streams moved on: clients that are gone stay where they were. */
  ghost function Followed(clients: seq<Client>, gone: set<Channel>, spans: seq<Span>,
                          stream: map<Key, seq<Envelope>>): (r: seq<Span>)
    requires |spans| == |clients|
    ensures |r| == |spans|
    ensures forall i :: 0 <= i < |clients| ==>
              r[i] == if clients[i].ch in gone then spans[i]
                else Span(spans[i].before, EventsAt(stream, clients[i].ch.key))
    ensures SameStarts(spans, r)
  {
    seq(|spans|, i requires 0 <= i < |spans| =>
      if clients[i].ch in gone then spans[i] else Span(spans[i].before, EventsAt(stream, clients[i].ch.key)))
  }

  predicate SameStarts(a: seq<Span>, b: seq<Span>) {
    |a| <= |b| && forall i :: 0 <= i < |a| ==> b[i].before == a[i].before
  }

  /** The client of this subscription, which started at the stream of that moment. */
  predicate Joined(op: Op, stream: map<Key, seq<Envelope>>, c: Client, span: Span) {
    op == Connect(c.ch.key, c.last) && span.before == EventsAt(stream, c.ch.key)
  }

  /** One of the operations is the client's subscription, and its stream starts with what the ones
      before it had published. */
  ghost predicate JoinedDuring(ops: seq<Op>, stream: map<Key, seq<Envelope>>, c: Client, span: Span) {
    exists n :: 0 <= n < |ops| && ops[n] == Connect(c.ch.key, c.last)
                && span.before == EventsAt(stream, c.ch.key) + PublishedTo(ops[..n], c.ch.key)
  }

  lemma {:induction false} JoinedKept(ops: seq<Op>, stream: map<Key, seq<Envelope>>, c: Client, was: Span, now: Span)
    requires JoinedDuring(ops, stream, c, was) && now.before == was.before
    ensures JoinedDuring(ops, stream, c, now)
  {
  }

  lemma {:induction false} JoinedNow(ops: seq<Op>, n: nat, stream: map<Key, seq<Envelope>>,
                                     now: map<Key, seq<Envelope>>, c: Client, span: Span)
    requires n < |ops| && Joined(ops[n], now, c, span)
    requires EventsAt(now, c.ch.key) == EventsAt(stream, c.ch.key) + PublishedTo(ops[..n], c.ch.key)
    ensures JoinedDuring(ops, stream, c, span)
  {
  }

  /** The service: one hub and the requests it ever served. */
  class Server {
    const hub: Hub
    var clients: seq<Client>
    ghost var spans: seq<Span>

    constructor ()
      ensures Valid() && clients == [] && hub.stream == map[] && fresh(hub) && fresh(Repr())
    {
      hub := new Hub();
      clients, spans := [], [];
    }

    ghost function Repr(): set<object>
      reads this
    {
      {this, hub} + set c | c in clients :: c.ch
    }

    /** Every client is served, the open ones up to this moment, and the hub's subscribers are they. */
    ghost predicate Valid()
      reads Repr(), hub, hub.Channels()
    {
      && hub.Valid() && |spans| == |clients|
      && (forall i, j :: 0 <= i < j < |clients| ==> clients[i].ch != clients[j].ch)
      && (forall i :: 0 <= i < |clients| ==> InStep(clients[i], spans[i], hub.subscribers, hub.stream))
      && (forall k, ch :: ch in ChannelsAt(hub.subscribers, k) ==> ch in Repr())
    }

    method Publish(e: Envelope)
      requires Valid()
      modifies Repr()
      ensures Valid() && clients == old(clients)
      ensures var id := Canonical(e.aggregateId);
              hub.stream == old(hub.stream)[id := EventsAt(old(hub.stream), id) + [e]]
      ensures SameStarts(old(spans), spans)
    {
      hide Hub.Valid, Channel.Follows, Started, InStep;
      AllLive(hub);
      ghost var gone := set c | c in clients && c.ch.closed :: c.ch;
      forall i | 0 <= i < |clients| ensures Subscribed(clients[i], spans[i], hub.subscribers, hub.stream) {
        InStepFacts(clients[i], spans[i], hub.subscribers, hub.stream);
      }
      hub.Publish(e);
      AllLive(hub);
      label Published:
      spans := Followed(clients, gone, spans, hub.stream);
      assert hub.Valid() by { assert hub.Channels() == old@Published(hub.Channels()); }
      forall i | 0 <= i < |clients| ensures InStep(clients[i], spans[i], hub.subscribers, hub.stream) {
        var c := clients[i];
        if c.ch in gone {
          assert unchanged(c.ch);
          GoneInStep(c, spans[i], hub.subscribers, old(hub.stream), hub.stream);
        } else {
          FollowedInStep(c, old(spans[i]), hub.subscribers, hub.stream);
        }
      }
    }

    method Connect(key: Key, last: Option<Id>)
      requires Valid()
      modifies Repr()
      ensures Valid() && hub.stream == old(hub.stream) && fresh(Repr() - old(Repr()))
      ensures |clients| == |old(clients)| + 1 && old(clients) <= clients
      ensures spans == old(spans) + [Span(EventsAt(hub.stream, key), EventsAt(hub.stream, key))]
      ensures var c := clients[|old(clients)|];
              c.ch.key == key && c.last == last && !c.ch.lost && c.ch.start == |EventsAt(hub.stream, key)|
    {
      hide Hub.Valid, LastOf, IsReplay, InStep, Channel.Follows;
      ghost var before := EventsAt(hub.stream, key);
      HistoryAt(hub, key);
      var ch, replay := hub.Subscribe(key, last);
      var c := Client(ch, last, replay);
      NewlyInStep(c, hub.subscribers, hub.stream);
      label Subscribed:
      forall i | 0 <= i < |clients| ensures InStep(clients[i], spans[i], hub.subscribers, hub.stream) {
        assert InStep(clients[i], spans[i], old(hub.subscribers), hub.stream);
        StillInStep(clients[i], spans[i], old(hub.subscribers), hub.subscribers, hub.stream);
      }
      clients := clients + [c];
      spans := spans + [Span(before, before)];
      assert hub.Valid() by { assert hub.Channels() == old@Subscribed(hub.Channels()); }
      assert c in clients;
      forall k, x | x in ChannelsAt(hub.subscribers, k) ensures x in Repr() {
        if x != ch {
          assert x in ChannelsAt(old(hub.subscribers), k) && x in old(Repr());
          assert forall y :: y in old(clients) ==> y in clients;
        }
      }
    }

    method Take(i: nat)
      requires Valid() && i < |clients| && !clients[i].ch.closed && clients[i].ch.buffer != []
      modifies Repr()
      ensures Valid() && clients == old(clients) && spans == old(spans) && hub.stream == old(hub.stream)
      ensures var ch := clients[i].ch;
              ch.received == old(ch.received) + [old(ch.buffer)[0]] && ch.buffer == old(ch.buffer)[1..]
    {
      hide HistoryOk, Subsequence, Started, LastOf;
      var e := hub.Take(clients[i].ch);
      forall j | 0 <= j < |clients| ensures InStep(clients[j], spans[j], hub.subscribers, hub.stream) {
        assert old(InStep(clients[j], spans[j], hub.subscribers, hub.stream));
        if j == i {
          assert clients[i].ch.Live(clients[i].ch.key, EventsAt(hub.stream, clients[i].ch.key));
        } else {
          assert unchanged(clients[j].ch);
        }
      }
    }

    method Leave(i: nat)
      requires Valid() && i < |clients|
      modifies Repr()
      ensures Valid() && clients == old(clients) && spans == old(spans) && hub.stream == old(hub.stream)
      ensures clients[i].ch.closed && clients[i].ch.received == old(clients[i].ch.received)
    {
      hide Hub.Valid, Subsequence, Started, LastOf, EventsAt;
      assert InStep(clients[i], spans[i], hub.subscribers, hub.stream);
      var panics := hub.Unsubscribe(clients[i].ch);
      assert InStep(clients[i], spans[i], hub.subscribers, hub.stream);
      hide InStep;
      forall j | 0 <= j < |clients| && j != i ensures InStep(clients[j], spans[j], hub.subscribers, hub.stream) {
        assert InStep(clients[j], spans[j], old(hub.subscribers), hub.stream);
        StillInStep(clients[j], spans[j], old(hub.subscribers), hub.subscribers, hub.stream);
      }
    }

    method Do(op: Op)
      requires Valid()
      modifies Repr()
      ensures Valid() && old(clients) <= clients && fresh(Repr() - old(Repr()))
      ensures forall k :: EventsAt(hub.stream, k) == EventsAt(old(hub.stream), k) + Sends(op, k)
      ensures |spans| == |clients| && SameStarts(old(spans), spans)
      ensures if op.Connect?
              then |clients| == |old(clients)| + 1 && Joined(op, old(hub.stream), clients[|old(clients)|],
                                                             spans[|old(clients)|])
              else clients == old(clients)
      ensures op.Leave? && op.client < |old(clients)| ==> clients[op.client].ch.closed
      ensures op.Take? && op.client < |old(clients)| ==>
                var ch := old(clients)[op.client].ch;
                ch.received == if old(ch.closed) || old(ch.buffer) == [] then old(ch.received)
                               else old(ch.received) + [old(ch.buffer)[0]]
    {
      hide Valid, HistoryOk, Subsequence, LastOf;
      Sizes();
      match op {
        case Publish(e) => Publish(e);
        case Connect(key, last) => Connect(key, last);
        case Take(i) => if i < |clients| && !clients[i].ch.closed && clients[i].ch.buffer != [] { Take(i); }
        case Leave(i) => if i < |clients| { Leave(i); }
      }
      Sizes();
    }

    lemma {:induction false} Sizes()
      requires Valid()
      ensures |spans| == |clients|
    {
    }

    /** Any sequence of publications, subscriptions, reads and departures keeps every client served,
        from the stream as it was when it subscribed. */
    method Run(ops: seq<Op>)
      requires Valid()
      modifies Repr()
      ensures Valid() && old(clients) <= clients && |spans| == |clients| && SameStarts(old(spans), spans)
      ensures |clients| == |old(clients)| + Connections(ops)
      ensures forall k :: EventsAt(hub.stream, k) == EventsAt(old(hub.stream), k) + PublishedTo(ops, k)
      ensures forall i :: |old(clients)| <= i < |clients| ==>
                JoinedDuring(ops, old(hub.stream), clients[i], spans[i])
    {
      hide Valid, EventsAt, Sends, Joined, JoinedDuring, PublishedTo, Connections, SameStarts;
      Sizes();
      NothingYet(ops, spans);
      for n := 0 to |ops|
        invariant Valid() && old(clients) <= clients && fresh(Repr() - old(Repr()))
        invariant |spans| == |clients| && SameStarts(old(spans), spans)
        invariant |clients| == |old(clients)| + Connections(ops[..n])
        invariant forall k :: EventsAt(hub.stream, k) == EventsAt(old(hub.stream), k) + PublishedTo(ops[..n], k)
        invariant forall i :: |old(clients)| <= i < |clients| ==>
                    JoinedDuring(ops, old(hub.stream), clients[i], spans[i])
      {
        ghost var before, already := hub.stream, spans;
        Do(ops[n]);
        OneMoreOp(ops, n);
        StartsStay(old(spans), already, spans);
        forall i | |old(clients)| <= i < |clients| ensures JoinedDuring(ops, old(hub.stream), clients[i], spans[i]) {
          if i < |already| {
            JoinedKept(ops, old(hub.stream), clients[i], already[i], spans[i]);
          } else {
            JoinedNow(ops, n, old(hub.stream), before, clients[i], spans[i]);
          }
        }
      }
      assert ops[..|ops|] == ops;
    }
  }

  lemma {:induction false} NothingYet(ops: seq<Op>, spans: seq<Span>)
    ensures Connections(ops[..0]) == 0 && (forall k :: PublishedTo(ops[..0], k) == []) && SameStarts(spans, spans)
  {
  }

  lemma {:induction false} OneMoreOp(ops: seq<Op>, n: nat)
    requires n < |ops|
    ensures Connections(ops[..n + 1]) == Connections(ops[..n]) + if ops[n].Connect? then 1 else 0
    ensures forall k :: PublishedTo(ops[..n + 1], k) == PublishedTo(ops[..n], k) + Sends(ops[n], k)
  {
    assert ops[..n + 1][..n] == ops[..n];
  }

  /** Starts stay, and the start of a span there was before is the one it had. */
  lemma {:induction false} StartsStay(a: seq<Span>, b: seq<Span>, c: seq<Span>)
    requires SameStarts(a, b) && SameStarts(b, c)
    ensures SameStarts(a, c) && |b| <= |c| && forall i :: 0 <= i < |b| ==> c[i].before == b[i].before
  {
  }

  datatype Op = Publish(e: Envelope) | Connect(key: Key, last: Option<Id>) | Take(client: nat) | Leave(client: nat)

  function Sends(op: Op, k: Key): seq<Envelope> {
    if op.Publish? && Canonical(op.e.aggregateId) == k then [op.e] else []
  }

  function Connections(ops: seq<Op>): nat {
    if ops == [] then 0 else Connections(ops[..|ops| - 1]) + if ops[|ops| - 1].Connect? then 1 else 0
  }

  /** The events of these operations that go to a key. */
  function PublishedTo(ops: seq<Op>, k: Key): seq<Envelope> {
    if ops == [] then [] else PublishedTo(ops[..|ops| - 1], k) + Sends(ops[|ops| - 1], k)
  }
}
