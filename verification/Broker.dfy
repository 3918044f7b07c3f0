/** realtime.Broker: a lossy bounded fan-out of execution events to subscribed channels, with overlapping publishers. */
module Broker {
  import opened Domain
  import opened Sequences

  const CAPACITY: nat := 32

  /** A buffered Go channel; sending to or closing a closed one panics. */
  datatype Channel = Channel(buffer: seq<Event>, closed: bool) {
    /** A send that would block is skipped. */
    function Offer(e: Event): Channel {
      if |buffer| < CAPACITY then this.(buffer := buffer + [e]) else this
    }
  }

  datatype Hub = Hub(subscribers: map<Id, set<Id>>, channels: map<Id, Channel>) {
    /** The channels that an event for execution e goes to. */
    function Audience(e: Id): set<Id> {
      if e in subscribers then subscribers[e] else {}
    }

    predicate Closed(c: Id) {
      c in channels && channels[c].closed
    }
  }

  function AfterSubscribe(h: Hub, e: Id, c: Id): Hub {
    Hub(h.subscribers[e := h.Audience(e) + {c}], h.channels[c := Channel([], false)])
  }

  function AfterUnsubscribe(h: Hub, e: Id, c: Id): Hub {
    if e !in h.subscribers || c !in h.channels then h else
    var rest := h.subscribers[e] - {c};
    Hub(if rest == {} then h.subscribers - {e} else h.subscribers[e := rest],
        h.channels[c := h.channels[c].(closed := true)])
  }

  function AfterOffer(h: Hub, c: Id, e: Event): Hub
    requires c in h.channels
  {
    h.(channels := h.channels[c := h.channels[c].Offer(e)])
  }

  // ---------- Schedules ----------

  /** A publish under way holds the read lock; due are the channels it has not offered its event to yet. */
  datatype Publishing = Publishing(event: Event, due: set<Id>)

  /** Publishes have numbers. The hub, with what each channel is for, what its reader has taken, and the publishes. */
  datatype State = State(
    hub: Hub,
    topic: map<Id, Id>,
    received: map<Id, seq<Event>>,
    left: set<Id>,
    open: map<nat, Publishing>,
    begun: set<nat>)

  const START := State(Hub(map[], map[]), map[], map[], {}, map[], {})

  datatype Move =
    | Begin(p: nat, e: Event)
    | Offer(p: nat, c: Id)
    | End(p: nat)
    | Subscribe(execution: Id, c: Id)
    | Unsubscribe(c: Id)
    | Receive(c: Id)

  /**
   * Any number of publishes may be under way at once; only subscribing and unsubscribing, which take the write lock,
   * wait for all of them. Channels are new when subscribed, and each unsubscribe is called at most once.
   */
  predicate Possible(s: State, m: Move) {
    match m
    case Begin(p, _) => p !in s.begun
    case Offer(p, c) => p in s.open && c in s.open[p].due && c in s.hub.channels
    case End(p) => p in s.open && s.open[p].due == {}
    case Subscribe(_, c) => s.open == map[] && c !in s.topic
    case Unsubscribe(c) => s.open == map[] && c in s.topic && c !in s.left
    case Receive(c) => c in s.received && c in s.hub.channels && s.hub.channels[c].buffer != []
  }

  function Apply(s: State, m: Move): State {
    if !Possible(s, m) then s else
    match m
    case Begin(p, e) =>
      s.(open := s.open[p := Publishing(e, s.hub.Audience(e.executionId))], begun := s.begun + {p})
    case Offer(p, c) =>
      s.(hub := AfterOffer(s.hub, c, s.open[p].event),
         open := s.open[p := Publishing(s.open[p].event, s.open[p].due - {c})])
    case End(p) => s.(open := s.open - {p})
    case Subscribe(e, c) =>
      s.(hub := AfterSubscribe(s.hub, e, c), topic := s.topic[c := e], received := s.received[c := []])
    case Unsubscribe(c) => s.(hub := AfterUnsubscribe(s.hub, s.topic[c], c), left := s.left + {c})
    case Receive(c) =>
      var ch := s.hub.channels[c];
      s.(hub := s.hub.(channels := s.hub.channels[c := ch.(buffer := ch.buffer[1..])]),
         received := s.received[c := s.received[c] + [ch.buffer[0]]])
  }

  function After(ms: seq<Move>): State {
    if ms == [] then START else Apply(After(ms[..|ms| - 1]), ms[|ms| - 1])
  }

  predicate Schedule(ms: seq<Move>) {
    ms == [] || (Schedule(ms[..|ms| - 1]) && Possible(After(ms[..|ms| - 1]), ms[|ms| - 1]))
  }

  /** A move that would send on, or close, a closed channel. */
  predicate Panics(s: State, m: Move) {
    match m
    case Offer(_, c) => s.hub.Closed(c)
    case Unsubscribe(c) => c in s.topic && s.topic[c] in s.hub.subscribers && s.hub.Closed(c)
    case _ => false
  }

  lemma {:induction false} OneMove(ms: seq<Move>, m: Move)
    requires Schedule(ms) && Possible(After(ms), m)
    ensures Schedule(ms + [m]) && After(ms + [m]) == Apply(After(ms), m)
  {
    hide Apply, Possible;
    assert (ms + [m])[..|ms + [m]| - 1] == ms;
  }

  lemma {:induction false} Prefix(ms: seq<Move>, k: nat)
    requires Schedule(ms) && k <= |ms|
    ensures Schedule(ms[..k])
    ensures k < |ms| ==> Possible(After(ms[..k]), ms[k])
    ensures k < |ms| ==> After(ms[..k + 1]) == Apply(After(ms[..k]), ms[k])
    decreases |ms|
  {
    hide Apply, Possible;
    if k == |ms| {
      assert ms[..k] == ms;
    } else {
      Prefix(ms[..|ms| - 1], k);
      assert ms[..|ms| - 1][..k] == ms[..k];
      assert ms[..k + 1][..k] == ms[..k];
    }
  }

  // ---------- What every schedule keeps ----------

  predicate Subscribed(s: State, e: Id, c: Id) {
    c in s.topic && s.topic[c] == e && c !in s.left
  }

  /** What a publish still has to do, it has to do for subscribers of its execution. */
  predicate PublishOk(s: State, p: nat) {
    p in s.open ==> p in s.begun && s.open[p].due <= s.hub.Audience(s.open[p].event.executionId)
  }

  ghost predicate Consistent(s: State) {
    && s.topic.Keys == s.hub.channels.Keys == s.received.Keys
    && s.left <= s.topic.Keys
    && (forall c :: c in s.topic ==> (s.hub.channels[c].closed <==> c in s.left))
    && (forall e, c :: c in s.hub.Audience(e) <==> Subscribed(s, e, c))
    && (forall e :: e in s.hub.subscribers ==> s.hub.subscribers[e] != {})
    && (forall c :: c in s.topic ==> |s.hub.channels[c].buffer| <= CAPACITY)
    && (forall p: nat {:trigger PublishOk(s, p)} :: PublishOk(s, p))
  }

  lemma {:induction false} AlwaysConsistent(ms: seq<Move>)
    requires Schedule(ms)
    ensures Consistent(After(ms))
  {
    hide Apply, Possible, Consistent;
    if ms != [] {
      AlwaysConsistent(ms[..|ms| - 1]);
      StepConsistent(After(ms[..|ms| - 1]), ms[|ms| - 1]);
    } else {
      StartConsistent();
    }
  }

  lemma StartConsistent()
    ensures Consistent(START)
  {
  }

  lemma StepConsistent(s: State, m: Move)
    requires Consistent(s) && Possible(s, m)
    ensures Consistent(Apply(s, m))
  {
    hide Apply, Possible, Consistent;
    match m
    case Subscribe(_, _) => SubscribeConsistent(s, m);
    case Unsubscribe(_) => UnsubscribeConsistent(s, m);
    case _ => OtherConsistent(s, m);
  }

  lemma OtherConsistent(s: State, m: Move)
    requires Consistent(s) && Possible(s, m) && !m.Subscribe? && !m.Unsubscribe?
    ensures Consistent(Apply(s, m))
  {
    var t := Apply(s, m);
    forall e, c ensures c in t.hub.Audience(e) <==> Subscribed(t, e, c) {
      assert c in s.hub.Audience(e) <==> Subscribed(s, e, c);
    }
    forall p: nat ensures PublishOk(t, p) { assert PublishOk(s, p); }
  }

  lemma SubscribeConsistent(s: State, m: Move)
    requires Consistent(s) && Possible(s, m) && m.Subscribe?
    ensures Consistent(Apply(s, m))
  {
    SubscribeRest(s, m);
    forall e, c ensures c in Apply(s, m).hub.Audience(e) <==> Subscribed(Apply(s, m), e, c) {
      SubscribeAudience(s, m, e, c);
    }
    hide Apply, Possible;
    NothingOpen(Apply(s, m));
  }

  lemma SubscribeAudience(s: State, m: Move, e: Id, c: Id)
    requires Consistent(s) && Possible(s, m) && m.Subscribe?
    ensures c in Apply(s, m).hub.Audience(e) <==> Subscribed(Apply(s, m), e, c)
  {
    assert c in s.hub.Audience(e) <==> Subscribed(s, e, c);
  }

  lemma SubscribeRest(s: State, m: Move)
    requires Consistent(s) && Possible(s, m) && m.Subscribe?
    ensures var t := Apply(s, m);
            && t.open == map[]
            && t.topic.Keys == t.hub.channels.Keys == t.received.Keys && t.left <= t.topic.Keys
            && (forall c :: c in t.topic ==>
                  (t.hub.channels[c].closed <==> c in t.left) && |t.hub.channels[c].buffer| <= CAPACITY)
            && (forall e :: e in t.hub.subscribers ==> t.hub.subscribers[e] != {})
  {
  }

  lemma NothingOpen(s: State)
    requires s.open == map[]
    ensures forall p: nat {:trigger PublishOk(s, p)} :: PublishOk(s, p)
  {
  }

  lemma UnsubscribeConsistent(s: State, m: Move)
    requires Consistent(s) && Possible(s, m) && m.Unsubscribe?
    ensures Consistent(Apply(s, m))
  {
    var t, topic := Apply(s, m), s.topic[m.c];
    assert m.c in s.hub.Audience(topic);
    forall e, c ensures c in t.hub.Audience(e) <==> Subscribed(t, e, c) {
      assert c in s.hub.Audience(e) <==> Subscribed(s, e, c);
      assert e == topic ==> t.hub.Audience(e) == s.hub.Audience(e) - {m.c};
    }
  }

  /** With single unsubscribes, no schedule sends on or closes a closed channel, and no empty subscriber set is kept. */
  lemma {:induction false} NeverPanics(ms: seq<Move>, m: Move)
    requires Schedule(ms) && Possible(After(ms), m)
    ensures !Panics(After(ms), m)
    ensures forall e :: e in After(ms).hub.subscribers ==> After(ms).hub.subscribers[e] != {}
  {
    hide Schedule, After;
    AlwaysConsistent(ms);
    if m.Offer? {
      assert PublishOk(After(ms), m.p);
    }
  }

  /** Calling an unsubscribe again panics exactly when the execution still has another subscriber. */
  lemma {:induction false} SecondUnsubscribePanicsIff(ms: seq<Move>, c: Id)
    requires Schedule(ms) && c in After(ms).topic && c in After(ms).left
    ensures Panics(After(ms), Unsubscribe(c)) <==>
            exists d :: Subscribed(After(ms), After(ms).topic[c], d)
  {
    hide Schedule, After;
    AlwaysConsistent(ms);
    var s := After(ms);
    var e := s.topic[c];
    if e in s.hub.subscribers {
      var d :| d in s.hub.subscribers[e];
      assert d in s.hub.Audience(e);
    } else {
      assert s.hub.Audience(e) == {};
    }
  }

  /** Two readers of one execution, of which the first has left. */
  const ONE_LEFT: seq<Move> := [Subscribe(0, 7), Subscribe(0, 8), Unsubscribe(7)]

  /** The condition is met: then the first one's unsubscribe, called again, panics. */
  lemma {:induction false} SecondUnsubscribePanics()
    ensures Schedule(ONE_LEFT) && 7 in After(ONE_LEFT).left && Panics(After(ONE_LEFT), Unsubscribe(7))
  {
    var ms := ONE_LEFT;
    assert ms[..2][..1] == ms[..1] && ms[..1][..0] == [];
    assert After(ms[..1]) == Apply(START, ms[0]) && Schedule(ms[..1]);
    assert After(ms[..2]) == Apply(After(ms[..1]), ms[1]) && Schedule(ms[..2]);
    assert After(ms[..2]).hub.subscribers[0] == {7, 8};
  }

  // ---------- Offers ----------

  datatype Offered = Offered(publish: nat, event: Event)

  /** The offers made to channel c, in order. */
  function Offers(ms: seq<Move>, c: Id): seq<Offered> {
    if ms == [] then [] else
    var before := Offers(ms[..|ms| - 1], c);
    match ms[|ms| - 1]
    case Offer(p, d) =>
      if d == c && p in After(ms[..|ms| - 1]).open then
        before + [Offered(p, After(ms[..|ms| - 1]).open[p].event)]
      else before
    case _ => before
  }

  function Events(os: seq<Offered>): (r: seq<Event>)
    ensures |r| == |os|
  {
    seq(|os|, i requires 0 <= i < |os| => os[i].event)
  }

  /** Publish p has made its offer to c. */
  predicate Made(os: seq<Offered>, p: nat) {
    exists i :: 0 <= i < |os| && os[i].publish == p
  }

  /** Channel c was subscribed for execution e and has not been unsubscribed. */
  predicate Listening(ms: seq<Move>, c: Id, e: Id) {
    if ms == [] then false else
    match ms[|ms| - 1]
    case Subscribe(e', c') => if c' == c then e' == e else Listening(ms[..|ms| - 1], c, e)
    case Unsubscribe(c') => c' != c && Listening(ms[..|ms| - 1], c, e)
    case _ => Listening(ms[..|ms| - 1], c, e)
  }

  lemma {:induction false} ListensIff(ms: seq<Move>, c: Id, e: Id)
    requires Schedule(ms)
    ensures Listening(ms, c, e) <==> Subscribed(After(ms), e, c)
  {
    if ms != [] {
      ListensIff(ms[..|ms| - 1], c, e);
      AlwaysConsistent(ms[..|ms| - 1]);
    }
  }

  /** The state of publish p towards channel c: an offer is made at most once, and only while it is due. */
  predicate OfferOk(s: State, os: seq<Offered>, p: nat, c: Id) {
    && (Made(os, p) ==> p in s.begun)
    && (p in s.open && c in s.open[p].due ==> !Made(os, p))
  }

  predicate Once(os: seq<Offered>) {
    forall i, j :: 0 <= i < j < |os| ==> os[i].publish != os[j].publish
  }

  lemma MadeSnoc(os: seq<Offered>, o: Offered, p: nat)
    ensures Made(os + [o], p) <==> Made(os, p) || o.publish == p
  {
    if Made(os, p) {
      var i :| 0 <= i < |os| && os[i].publish == p;
      assert (os + [o])[i].publish == p;
    }
    assert (os + [o])[|os|] == o;
  }

  lemma {:induction false} OffersAreOnce(ms: seq<Move>, c: Id)
    requires Schedule(ms)
    ensures Once(Offers(ms, c)) && forall p: nat :: OfferOk(After(ms), Offers(ms, c), p, c)
  {
    if ms != [] {
      var ms', m := ms[..|ms| - 1], ms[|ms| - 1];
      OffersAreOnce(ms', c);
      AlwaysConsistent(ms');
      OffersStep(After(ms'), m, Offers(ms', c), Offers(ms, c), c);
    }
  }

  lemma OffersStep(s: State, m: Move, os: seq<Offered>, os': seq<Offered>, c: Id)
    requires Consistent(s) && Possible(s, m) && Once(os) && forall p: nat :: OfferOk(s, os, p, c)
    requires os' == if m.Offer? && m.c == c then os + [Offered(m.p, s.open[m.p].event)] else os
    ensures Once(os') && forall p: nat :: OfferOk(Apply(s, m), os', p, c)
  {
    var t := Apply(s, m);
    if m.Offer? {
      assert OfferOk(s, os, m.p, c) && PublishOk(s, m.p);
    }
    forall p: nat ensures OfferOk(t, os', p, c) {
      assert OfferOk(s, os, p, c);
      if m.Offer? && m.c == c {
        MadeSnoc(os, Offered(m.p, s.open[m.p].event), p);
      }
    }
  }

  // ---------- Delivery ----------

  /** What channel c has accepted: taken by its reader or still buffered. */
  function Accepted(s: State, c: Id): seq<Event> {
    if c in s.received && c in s.hub.channels then s.received[c] + s.hub.channels[c].buffer else []
  }

  /** A move adds at most the offered event, and that only if the buffer has room. */
  lemma StepAccepts(s: State, m: Move, c: Id)
    requires Consistent(s) && Possible(s, m) && c in s.topic
    ensures c in Apply(s, m).topic
    ensures Accepted(Apply(s, m), c) ==
            if m.Offer? && m.c == c && |s.hub.channels[c].buffer| < CAPACITY then Accepted(s, c) + [s.open[m.p].event]
            else Accepted(s, c)
  {
    if m == Receive(c) {
      var b := s.hub.channels[c].buffer;
      assert s.received[c] + [b[0]] + b[1..] == s.received[c] + b;
    } else if m.Offer? && m.c == c && |s.hub.channels[c].buffer| < CAPACITY {
      assert s.received[c] + (s.hub.channels[c].buffer + [s.open[m.p].event])
          == s.received[c] + s.hub.channels[c].buffer + [s.open[m.p].event];
    }
  }

  lemma EventsSnoc(os: seq<Offered>, o: Offered)
    ensures Events(os + [o]) == Events(os) + [o.event]
  {
  }

  /** What a reader has taken, plus what is buffered for it, is an in-order selection of the offers made to it. */
  lemma {:induction false} AcceptedInOrder(ms: seq<Move>, c: Id)
    requires Schedule(ms) && c in After(ms).topic
    ensures Within(Accepted(After(ms), c), Events(Offers(ms, c)))
  {
    hide Possible, Consistent, Apply;
    var ms', m := ms[..|ms| - 1], ms[|ms| - 1];
    AlwaysConsistent(ms');
    if c in After(ms').topic {
      AcceptedInOrder(ms', c);
      StepAccepts(After(ms'), m, c);
      OfferIsOpen(After(ms'), m);
      if m.Offer? && m.c == c {
        EventsSnoc(Offers(ms', c), Offered(m.p, After(ms').open[m.p].event));
        WithinSnoc(Accepted(After(ms'), c), Events(Offers(ms', c)), After(ms').open[m.p].event);
      }
    } else {
      NewlySubscribed(After(ms'), m, c);
    }
  }

  lemma OfferIsOpen(s: State, m: Move)
    requires Possible(s, m)
    ensures m.Offer? ==> m.p in s.open
  {
  }

  lemma NewlySubscribed(s: State, m: Move, c: Id)
    requires c !in s.topic && c in Apply(s, m).topic
    ensures Accepted(Apply(s, m), c) == []
  {
  }

  /**
   * Every reader receives an in-order selection of the offers made to it; and no publish is offered to it twice.
   */
  lemma {:induction false} DeliveredInOrder(ms: seq<Move>, c: Id)
    requires Schedule(ms) && c in After(ms).topic
    ensures c in After(ms).received && Within(After(ms).received[c], Events(Offers(ms, c)))
    ensures Once(Offers(ms, c))
  {
    hide Schedule, After, Offers;
    AcceptedInOrder(ms, c);
    OffersAreOnce(ms, c);
    var s := After(ms);
    AlwaysConsistent(ms);
    var accepted := Accepted(s, c);
    WithinPrefix(accepted, |s.received[c]|, Events(Offers(ms, c)));
    assert accepted[..|s.received[c]|] == s.received[c];
  }

  /** An offer reaches the buffer exactly if it does not already hold 32, and no other channel. */
  lemma {:induction false} LostIffFull(ms: seq<Move>, p: nat, c: Id, d: Id)
    requires Schedule(ms) && Possible(After(ms), Offer(p, c)) && d in After(ms).hub.channels
    ensures var s := After(ms);
            var before, after := s.hub.channels[d].buffer, Apply(s, Offer(p, c)).hub.channels[d].buffer;
            after == if d == c && |before| < 32 then before + [s.open[p].event] else before
    ensures |After(ms).hub.channels[d].buffer| <= 32
  {
    hide Schedule, After;
    AlwaysConsistent(ms);
  }

  // ---------- Which offers are made ----------

  /** Publish p of event e began with move k. */
  predicate BeganAt(ms: seq<Move>, k: nat, p: nat, e: Event) {
    k < |ms| && ms[k] == Begin(p, e)
  }

  /** From its beginning on, a publish has an offer due or made to exactly the channels that listened then. */
  lemma {:induction false} DueOrMade(ms: seq<Move>, k: nat, p: nat, e: Event, c: Id)
    requires Schedule(ms) && BeganAt(ms, k, p, e)
    ensures p in After(ms).begun
    ensures p in After(ms).open ==> After(ms).open[p].event == e
    ensures Made(Offers(ms, c), p) || (p in After(ms).open && c in After(ms).open[p].due)
            <==> Listening(ms[..k], c, e.executionId)
    decreases |ms|
  {
    hide Schedule, Listening;
    var n := |ms| - 1;
    Prefix(ms, n);
    assert ms[..n + 1] == ms;
    AlwaysConsistent(ms[..n]);
    OffersAreOnce(ms[..n], c);
    if k == n {
      ListensIff(ms[..k], c, e.executionId);
      JustBegun(After(ms[..n]), p, e, Offers(ms[..n], c), c);
    } else {
      DueOrMade(ms[..n], k, p, e, c);
      assert ms[..n][..k] == ms[..k];
      DueStep(After(ms[..n]), ms[n], Offers(ms[..n], c), Offers(ms, c), p, c);
    }
  }

  lemma JustBegun(s: State, p: nat, e: Event, os: seq<Offered>, c: Id)
    requires Consistent(s) && Possible(s, Begin(p, e)) && OfferOk(s, os, p, c)
    ensures var t := Apply(s, Begin(p, e));
            p in t.begun && p in t.open && t.open[p].event == e
            && (Made(os, p) || c in t.open[p].due <==> Subscribed(s, e.executionId, c))
  {
    assert c in s.hub.Audience(e.executionId) <==> Subscribed(s, e.executionId, c);
  }

  lemma DueStep(s: State, m: Move, os: seq<Offered>, os': seq<Offered>, p: nat, c: Id)
    requires Consistent(s) && Possible(s, m) && p in s.begun
    requires os' == if m.Offer? && m.c == c then os + [Offered(m.p, s.open[m.p].event)] else os
    ensures var t := Apply(s, m);
            && p in t.begun && (p in t.open ==> p in s.open && t.open[p].event == s.open[p].event)
            && (Made(os', p) || (p in t.open && c in t.open[p].due)
               <==> Made(os, p) || (p in s.open && c in s.open[p].due))
  {
    if m.Offer? && m.c == c {
      MadeSnoc(os, Offered(m.p, s.open[m.p].event), p);
    }
  }

  /** A publish that is over has been offered to exactly the channels that listened when it began. */
  lemma {:induction false} EveryListenerIsOffered(ms: seq<Move>, k: nat, p: nat, e: Event, c: Id)
    requires Schedule(ms) && BeganAt(ms, k, p, e) && p !in After(ms).open
    ensures Made(Offers(ms, c), p) <==> Listening(ms[..k], c, e.executionId)
  {
    DueOrMade(ms, k, p, e, c);
  }

  // ---------- The broker itself ----------

  /** The publish that makes a move. */
  function PublishOf(m: Move): Option<nat> {
    match m
    case Begin(p, _) => Some(p)
    case Offer(p, _) => Some(p)
    case End(p) => Some(p)
    case _ => None
  }

  lemma OthersSparePublish(s: State, m: Move, p: nat)
    requires Possible(s, m) && PublishOf(m) != Some(p)
    ensures p in s.open ==> p in Apply(s, m).open && Apply(s, m).open[p] == s.open[p]
    ensures p !in s.begun ==> p !in Apply(s, m).begun
  {
  }

  lemma DueIsOpen(s: State, p: nat)
    requires Consistent(s) && p in s.open
    ensures s.open[p].due <= s.hub.channels.Keys
    ensures forall c :: c in s.open[p].due ==> c in s.hub.channels && !s.hub.channels[c].closed
  {
    assert PublishOk(s, p);
    forall c | c in s.open[p].due ensures c in s.hub.channels && !s.hub.channels[c].closed {
      assert c in s.hub.Audience(s.open[p].event.executionId);
    }
  }

  class Broker {
    var subscribers: map<Id, set<Id>>
    var channels: map<Id, Channel>
    // The broker with all its readers and publishers, whose hub is the two fields above, and the moves they have made.
    var system: State
    ghost var moves: seq<Move>

    function View(): Hub
      reads this
    {
      Hub(subscribers, channels)
    }

    ghost predicate Reached()
      reads this
    {
      Schedule(moves) && system == After(moves)
    }

    ghost predicate Valid()
      reads this
    {
      Reached() && system.hub == View()
    }

    constructor ()
      ensures Valid() && moves == []
    {
      subscribers, channels := map[], map[];
      system, moves := START, [];
    }

    /** Somebody else moves. */
    method Elsewhere(m: Move)
      requires Valid() && Possible(system, m)
      modifies this
      ensures Valid() && moves == old(moves) + [m] && system == Apply(old(system), m)
    {
      hide Apply, Possible, Schedule, After;
      OneMove(moves, m);
      system, moves := Apply(system, m), moves + [m];
      subscribers, channels := system.hub.subscribers, system.hub.channels;
    }

    /** Other publishers, and the readers, may have moved any number of times. */
    method Others(p: nat)
      requires Valid()
      modifies this
      ensures Valid() && old(moves) <= moves
      ensures p in old(system).open ==> p in system.open && system.open[p] == old(system).open[p]
      ensures p !in old(system).begun ==> p !in system.begun
    {
      hide Apply, Possible, Schedule, After;
      var n: int := *;
      while n > 0
        invariant Valid() && old(moves) <= moves
        invariant p in old(system).open ==> p in system.open && system.open[p] == old(system).open[p]
        invariant p !in old(system).begun ==> p !in system.begun
      {
        n := n - 1;
        var m: Move := *;
        if Possible(system, m) && PublishOf(m) != Some(p) {
          OthersSparePublish(system, m, p);
          Elsewhere(m);
        }
      }
    }

    /** The call itself has just made move m. */
    method Moved(m: Move)
      requires Reached() && Possible(system, m) && Apply(system, m).hub == View()
      modifies this
      ensures Valid() && moves == old(moves) + [m] && system == Apply(old(system), m)
      ensures View() == old(View())
    {
      hide Apply, Possible, Schedule, After;
      OneMove(moves, m);
      system, moves := Apply(system, m), moves + [m];
    }

    /**
     * Publish number p, with other publishes and the readers moving between any two of its steps. It never meets a
     * closed channel, and makes one offer to each channel that listens when it takes the read lock, and to no other.
     */
    method Publish(p: nat, e: Event) returns (ghost at: nat)
      requires Valid() && p !in system.begun
      modifies this
      ensures Valid() && old(moves) <= moves
      ensures |old(moves)| <= at && BeganAt(moves, at, p, e) && p !in system.open
      ensures forall c :: Made(Offers(moves, c), p) <==> Listening(moves[..at], c, e.executionId)
    {
      hide Schedule, After, Offers, Listening, Made;
      Others(p);
      at := |moves|;
      var left: set<Id> := if e.executionId in subscribers then subscribers[e.executionId] else {};
      Moved(Begin(p, e));
      while left != {}
        invariant Valid() && old(moves) <= moves && |old(moves)| <= at
        invariant BeganAt(moves, at, p, e)
        invariant p in system.open && system.open[p] == Publishing(e, left)
        decreases left
      {
        Others(p);
        AlwaysConsistent(moves);
        DueIsOpen(system, p);
        var c :| c in left;
        left := left - {c};
        assert !channels[c].closed;
        if |channels[c].buffer| < CAPACITY {
          channels := channels[c := channels[c].(buffer := channels[c].buffer + [e])];
        }
        assert View() == AfterOffer(system.hub, c, e);
        Moved(Offer(p, c));
      }
      Others(p);
      Moved(End(p));
      forall c ensures Made(Offers(moves, c), p) <==> Listening(moves[..at], c, e.executionId) {
        EveryListenerIsOffered(moves, at, p, e, c);
      }
    }

    /** The channel is a new object, so its identity is new; the write lock waits for all publishes. */
    method Subscribe(e: Id, c: Id)
      requires Valid() && system.open == map[] && c !in system.topic
      modifies this
      ensures Valid() && moves == old(moves) + [Move.Subscribe(e, c)]
      ensures channels == old(channels)[c := Channel([], false)]
      ensures subscribers == old(subscribers)[e := (if e in old(subscribers) then old(subscribers)[e] else {}) + {c}]
    {
      hide Schedule, After;
      channels := channels[c := Channel([], false)];
      if e !in subscribers {
        subscribers := subscribers[e := {}];
      }
      subscribers := subscribers[e := subscribers[e] + {c}];
      Moved(Move.Subscribe(e, c));
    }

    /** The closure that Subscribe returns, bound to its execution and channel; panicked tells of a second close. */
    method Unsubscribe(e: Id, c: Id) returns (panicked: bool)
      requires Valid() && system.open == map[] && c in system.topic && system.topic[c] == e
      modifies this
      ensures panicked <==> e in old(subscribers) && c in old(channels) && old(channels)[c].closed
      ensures !panicked ==> Valid()
      ensures !panicked && c !in old(system).left ==>
                && moves == old(moves) + [Move.Unsubscribe(c)] && e in old(subscribers) && c in old(subscribers)[e]
                && c in old(channels) && channels == old(channels)[c := Channel(old(channels)[c].buffer, true)]
                && subscribers == if old(subscribers)[e] == {c} then old(subscribers) - {e}
                                  else old(subscribers)[e := old(subscribers)[e] - {c}]
      ensures !panicked && c in old(system).left ==> moves == old(moves) && View() == old(View())
    {
      hide Schedule, After;
      AlwaysConsistent(moves);
      panicked := false;
      assert c in system.hub.Audience(e) <==> Subscribed(system, e, c);
      if e in subscribers {
        var rest := subscribers[e] - {c};
        subscribers := subscribers[e := rest];
        if channels[c].closed {
          return true;
        }
        channels := channels[c := channels[c].(closed := true)];
        if rest == {} {
          subscribers := subscribers - {e};
        }
        assert View() == AfterUnsubscribe(system.hub, e, c);
        Moved(Move.Unsubscribe(c));
      }
    }
  }

  // ---------- Two publishes ----------

  lemma {:induction false} OffersGrow(ms: seq<Move>, k: nat, c: Id)
    requires k <= |ms|
    ensures Offers(ms[..k], c) <= Offers(ms, c)
    decreases |ms|
  {
    if k == |ms| {
      assert ms[..k] == ms;
    } else {
      OffersGrow(ms[..|ms| - 1], k, c);
      assert ms[..|ms| - 1][..k] == ms[..k];
    }
  }

  /** A publish that is over makes no more offers. */
  lemma {:induction false} NoMoreOffers(ms: seq<Move>, k: nat, p: nat, c: Id)
    requires Schedule(ms) && k <= |ms| && p in After(ms[..k]).begun && p !in After(ms[..k]).open
    ensures p in After(ms).begun && p !in After(ms).open
    ensures forall i :: |Offers(ms[..k], c)| <= i < |Offers(ms, c)| ==> Offers(ms, c)[i].publish != p
    decreases |ms|
  {
    if k == |ms| {
      assert ms[..k] == ms;
    } else {
      var n := |ms| - 1;
      assert ms[..n][..k] == ms[..k];
      NoMoreOffers(ms[..n], k, p, c);
    }
  }

  /** A publish that has not begun has made no offers. */
  lemma {:induction false} NoOffersYet(ms: seq<Move>, p: nat, c: Id)
    requires Schedule(ms) && p !in After(ms).begun
    ensures !Made(Offers(ms, c), p)
  {
    OffersAreOnce(ms, c);
    assert OfferOk(After(ms), Offers(ms, c), p, c);
  }

  lemma NotInPrefix(before: seq<Offered>, os: seq<Offered>, q: nat, j: nat)
    requires before <= os && j < |os| && os[j].publish == q && !Made(before, q)
    ensures j >= |before|
  {
    assert forall i :: 0 <= i < |before| ==> before[i] == os[i];
  }

  /**
   * Two publishes that do not overlap reach all readers in one order: where both are offered, the earlier comes first.
   */
  lemma {:induction false} OneOrder(ms: seq<Move>, k: nat, p: nat, q: nat, e: Event, c: Id, i: nat, j: nat)
    requires Schedule(ms) && BeganAt(ms, k, q, e)
    requires p in After(ms[..k]).begun && p !in After(ms[..k]).open
    requires i < |Offers(ms, c)| && j < |Offers(ms, c)|
    requires Offers(ms, c)[i].publish == p && Offers(ms, c)[j].publish == q
    ensures i < j
  {
    hide Schedule, After, Offers;
    Prefix(ms, k);
    NoMoreOffers(ms, k, p, c);
    NoOffersYet(ms[..k], q, c);
    OffersGrow(ms, k, c);
    NotInPrefix(Offers(ms[..k], c), Offers(ms, c), q, j);
  }

  // ---------- Two publishes that overlap ----------

  const E1 := Event(0, ToolStarted, Some(1))
  const E2 := Event(0, ToolStarted, Some(2))

  const BOTH_BEGIN := [Subscribe(0, 7), Subscribe(0, 8), Begin(1, E1), Begin(2, E2)]
  const CROSSING := [Offer(1, 7), Offer(2, 8), Offer(1, 8), Offer(2, 7)]
  const READING := [Receive(7), Receive(7), Receive(8), Receive(8)]

  /** The state after further moves. */
  function Chain(s: State, ms: seq<Move>): State
    decreases |ms|
  {
    if ms == [] then s else Chain(Apply(s, ms[0]), ms[1..])
  }

  predicate Allowed(s: State, ms: seq<Move>)
    decreases |ms|
  {
    ms == [] || (Possible(s, ms[0]) && Allowed(Apply(s, ms[0]), ms[1..]))
  }

  lemma {:induction false} Chained(before: seq<Move>, ms: seq<Move>)
    requires Schedule(before) && Allowed(After(before), ms)
    ensures Schedule(before + ms) && After(before + ms) == Chain(After(before), ms)
    decreases |ms|
  {
    hide Apply, Possible;
    if ms == [] {
      assert before + ms == before;
    } else {
      OneMove(before, ms[0]);
      Chained(before + [ms[0]], ms[1..]);
      assert before + [ms[0]] + ms[1..] == before + ms;
    }
  }

  lemma FourMoves(s: State, ms: seq<Move>)
    requires |ms| == 4
    ensures var s1 := Apply(s, ms[0]); var s2 := Apply(s1, ms[1]); var s3 := Apply(s2, ms[2]);
            && (Possible(s, ms[0]) && Possible(s1, ms[1]) && Possible(s2, ms[2]) && Possible(s3, ms[3]) ==>
                 Allowed(s, ms))
            && Chain(s, ms) == Apply(s3, ms[3])
  {
    hide Apply, Possible;
    assert ms[1..][1..] == ms[2..] && ms[2..][1..] == ms[3..] && ms[3..][1..] == [];
    var s1 := Apply(s, ms[0]);
    var s2 := Apply(s1, ms[1]);
    var s3 := Apply(s2, ms[2]);
    assert Chain(s3, ms[3..]) == Apply(s3, ms[3]);
    assert Chain(s2, ms[2..]) == Chain(s3, ms[3..]);
    assert Possible(s3, ms[3]) ==> Allowed(s3, ms[3..]);
    assert Possible(s2, ms[2]) && Allowed(s3, ms[3..]) ==> Allowed(s2, ms[2..]);
  }

  /** Two readers of execution 0, their buffers, what they have taken, and the publishes under way. */
  predicate Readers(s: State, b7: seq<Event>, b8: seq<Event>, r7: seq<Event>, r8: seq<Event>,
                    open: map<nat, Publishing>) {
    && s.hub.Audience(0) == {7, 8} && 7 in s.hub.channels && 8 in s.hub.channels
    && s.hub.channels[7].buffer == b7 && s.hub.channels[8].buffer == b8
    && 7 in s.received && 8 in s.received && s.received[7] == r7 && s.received[8] == r8
    && s.open == open
  }

  lemma BothBegin()
    ensures Allowed(START, BOTH_BEGIN)
    ensures Readers(Chain(START, BOTH_BEGIN), [], [], [], [],
                    map[1 := Publishing(E1, {7, 8}), 2 := Publishing(E2, {7, 8})])
  {
    FourMoves(START, BOTH_BEGIN);
    hide Allowed, Chain;
    var s1 := Apply(START, Subscribe(0, 7));
    var s2 := Apply(s1, Subscribe(0, 8));
    assert Readers(s2, [], [], [], [], map[]) && s2.begun == {};
    var s3 := Apply(s2, Begin(1, E1));
    assert Readers(s3, [], [], [], [], map[1 := Publishing(E1, {7, 8})]);
  }

  lemma OfferToReader(s: State, b7: seq<Event>, b8: seq<Event>, open: map<nat, Publishing>, p: nat, c: Id)
    requires Readers(s, b7, b8, [], [], open) && |b7| < CAPACITY && |b8| < CAPACITY
    requires p in open && c in open[p].due && (c == 7 || c == 8)
    ensures Possible(s, Offer(p, c))
    ensures var e := open[p].event;
            Readers(Apply(s, Offer(p, c)), if c == 7 then b7 + [e] else b7, if c == 8 then b8 + [e] else b8, [], [],
                    open[p := Publishing(e, open[p].due - {c})])
  {
  }

  lemma OffersCross(s: State)
    requires Readers(s, [], [], [], [], map[1 := Publishing(E1, {7, 8}), 2 := Publishing(E2, {7, 8})])
    ensures Allowed(s, CROSSING)
    ensures Readers(Chain(s, CROSSING), [E1, E2], [E2, E1], [], [], Chain(s, CROSSING).open)
  {
    FourMoves(s, CROSSING);
    hide Allowed, Chain, Possible, Apply, Readers;
    var o1 := map[1 := Publishing(E1, {7, 8}), 2 := Publishing(E2, {7, 8})];
    OfferToReader(s, [], [], o1, 1, 7);
    var s1, o2 := Apply(s, Offer(1, 7)), o1[1 := Publishing(E1, o1[1].due - {7})];
    OfferToReader(s1, [] + [E1], [], o2, 2, 8);
    var s2, o3 := Apply(s1, Offer(2, 8)), o2[2 := Publishing(E2, o2[2].due - {8})];
    OfferToReader(s2, [] + [E1], [] + [E2], o3, 1, 8);
    var s3, o4 := Apply(s2, Offer(1, 8)), o3[1 := Publishing(E1, o3[1].due - {8})];
    OfferToReader(s3, [] + [E1], [] + [E2] + [E1], o4, 2, 7);
    OpenOf(Apply(s3, Offer(2, 7)), [] + [E1] + [E2], [] + [E2] + [E1], o4[2 := Publishing(E2, o4[2].due - {7})]);
    assert [] + [E1] + [E2] == [E1, E2] && [] + [E2] + [E1] == [E2, E1];
  }

  lemma OpenOf(s: State, b7: seq<Event>, b8: seq<Event>, open: map<nat, Publishing>)
    requires Readers(s, b7, b8, [], [], open)
    ensures s.open == open
  {
  }

  lemma BothRead(s: State, open: map<nat, Publishing>)
    requires Readers(s, [E1, E2], [E2, E1], [], [], open)
    ensures Allowed(s, READING)
    ensures Readers(Chain(s, READING), [], [], [E1, E2], [E2, E1], open)
  {
    FourMoves(s, READING);
    hide Allowed, Chain;
    var s1 := Apply(s, Receive(7));
    assert Readers(s1, [E2], [E2, E1], [E1], [], open);
    var s2 := Apply(s1, Receive(7));
    assert Readers(s2, [], [E2, E1], [E1, E2], [], open);
    var s3 := Apply(s2, Receive(8));
    assert Readers(s3, [], [E1], [E1, E2], [E2], open);
  }

  /** Publishes that overlap can reach two readers in opposite orders. */
  lemma OverlapReorders()
    ensures Schedule(BOTH_BEGIN + CROSSING + READING)
    ensures var s := After(BOTH_BEGIN + CROSSING + READING);
            && 7 in s.received && 8 in s.received && s.received[7] == [E1, E2] && s.received[8] == [E2, E1]
    ensures E1 != E2
  {
    hide Apply, Possible;
    BothBegin();
    assert [] + BOTH_BEGIN == BOTH_BEGIN;
    Chained([], BOTH_BEGIN);
    OffersCross(After(BOTH_BEGIN));
    Chained(BOTH_BEGIN, CROSSING);
    BothRead(After(BOTH_BEGIN + CROSSING), After(BOTH_BEGIN + CROSSING).open);
    Chained(BOTH_BEGIN + CROSSING, READING);
  }
}
