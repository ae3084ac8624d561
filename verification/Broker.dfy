/** The notification broker (internal/realtime/hub.go): live subscribers, bounded buffers, two transports.

    Without Redis a publish puts the event into the buffer of every subscriber that the map lists for its
    channel. With Redis it goes to the server, which queues it for each confirmed subscription (or loses it), and a
    forwarder moves it into the buffer. A full buffer drops the event either way. */
module Broker {
  import opened Wrappers

  type Id = nat

  const SLOTS := 32

  /** channelFor: one channel per tenant and user. */
  datatype Channel = Channel(tenant: Id, user: Id)

  datatype Event = Event(channel: Channel, id: nat)

  /** `received` is what the reader has taken out of `buffer`; `wire` what Redis holds for this subscription.
      `from` and `upto` are the positions in the log at which it was opened and closed, `overflow` and `lost` the
      numbers of its events dropped at the buffer and by the transport: all four are history. */
  datatype Sub = Sub(channel: Channel, received: seq<Event>, buffer: seq<Event>, wire: seq<Event>, confirmed: bool,
                     from: nat, upto: Option<nat>, overflow: nat, lost: nat)

  datatype State = State(redis: bool, log: seq<Event>, subs: map<Channel, set<Id>>, chans: map<Id, Sub>)

  /** `heard` are the subscriptions that Redis actually delivers the event to. */
  datatype Step =
    | Subscribe(i: Id, channel: Channel)
    | Confirm(i: Id)
    | Publish(e: Event, heard: set<Id>)
    | Forward(i: Id)
    | Cut(i: Id)
    | Receive(i: Id)
    | Unsubscribe(i: Id)

  function Init(redis: bool): State {
    State(redis, [], map[], map[])
  }

  function Listed(subs: map<Channel, set<Id>>, channel: Channel): set<Id> {
    if channel in subs then subs[channel] else {}
  }

  /** select { case sub <- e: default: }. */
  function Push(c: Sub, e: Event): Sub {
    if |c.buffer| < SLOTS then c.(buffer := c.buffer + [e]) else c.(overflow := c.overflow + 1)
  }

  function Wired(c: Sub, e: Event, heard: bool): Sub {
    if c.upto.Some? || c.channel != e.channel then c
    else if heard && c.confirmed then c.(wire := c.wire + [e])
    else c.(lost := c.lost + 1)
  }

  function Without(subs: map<Channel, set<Id>>, channel: Channel, i: Id): map<Channel, set<Id>> {
    if channel !in subs then subs
    else if subs[channel] - {i} == {} then subs - {channel}
    else subs[channel := subs[channel] - {i}]
  }

  function Apply(s: State, a: Step): State {
    match a
    case Subscribe(i, channel) =>
      if i in s.chans then s
      else s.(subs := s.subs[channel := Listed(s.subs, channel) + {i}],
              chans := s.chans[i := Sub(channel, [], [], [], false, |s.log|, None, 0, 0)])
    case Confirm(i) =>
      if i in s.chans && s.redis then s.(chans := s.chans[i := s.chans[i].(confirmed := true)]) else s
    case Publish(e, heard) =>
      s.(log := s.log + [e],
         chans := map i | i in s.chans ::
           if s.redis then Wired(s.chans[i], e, i in heard)
           else if i in Listed(s.subs, e.channel) then Push(s.chans[i], e)
           else s.chans[i])
    case Forward(i) =>
      if i in s.chans && s.chans[i].wire != []
      then s.(chans := s.chans[i := Push(s.chans[i].(wire := s.chans[i].wire[1..]), s.chans[i].wire[0])])
      else s
    case Cut(i) =>
      if i in s.chans && s.chans[i].wire != []
      then s.(chans := s.chans[i := s.chans[i].(wire := s.chans[i].wire[1..], lost := s.chans[i].lost + 1)])
      else s
    case Receive(i) =>
      if i in s.chans && s.chans[i].buffer != []
      then s.(chans := s.chans[i := s.chans[i].(received := s.chans[i].received + [s.chans[i].buffer[0]],
                                                buffer := s.chans[i].buffer[1..])])
      else s
    case Unsubscribe(i) =>
      if i in s.chans && s.chans[i].upto.None?
      then s.(subs := Without(s.subs, s.chans[i].channel, i),
              chans := s.chans[i := s.chans[i].(upto := Some(|s.log|))])
      else s
  }

  function Run(s: State, steps: seq<Step>): State {
    if steps == [] then s else Apply(Run(s, steps[..|steps| - 1]), steps[|steps| - 1])
  }

  // ---- what a subscriber should see ----

  /** The events published to the channel from position `from` up to `to`. */
  function Own(log: seq<Event>, from: nat, to: nat, channel: Channel): seq<Event>
    requires to <= |log|
  {
    if to <= from then []
    else Own(log, from, to - 1, channel) + if log[to - 1].channel == channel then [log[to - 1]] else []
  }

  /** `s` arises from `t` by leaving elements out. */
  predicate Subsequence(s: seq<Event>, t: seq<Event>)
    decreases |t|
  {
    s == []
    || (t != [] && (Subsequence(s, t[..|t| - 1])
                    || (s[|s| - 1] == t[|t| - 1] && Subsequence(s[..|s| - 1], t[..|t| - 1]))))
  }

  lemma SubsequenceSkips(s: seq<Event>, t: seq<Event>, e: Event)
    requires Subsequence(s, t)
    ensures Subsequence(s, t + [e])
  {
    assert (t + [e])[..|t|] == t;
  }

  lemma SubsequenceTakes(s: seq<Event>, t: seq<Event>, e: Event)
    requires Subsequence(s, t)
    ensures Subsequence(s + [e], t + [e])
  {
    assert (t + [e])[..|t|] == t && (s + [e])[..|s|] == s;
  }

  lemma {:induction false} SubsequenceDrops(s: seq<Event>, r: seq<Event>, t: seq<Event>)
    requires |s| > 0 && Subsequence(s + r, t)
    ensures Subsequence(s[..|s| - 1] + r, t)
    decreases |t|
  {
    var whole, rest := s + r, s[..|s| - 1] + r;
    if rest != [] {
      var t' := t[..|t| - 1];
      if Subsequence(whole, t') {
        SubsequenceDrops(s, r, t');
      } else if r == [] {
        assert whole[..|whole| - 1] == rest;
      } else {
        assert whole[..|whole| - 1] == s + r[..|r| - 1];
        SubsequenceDrops(s, r[..|r| - 1], t');
        assert rest[..|rest| - 1] == s[..|s| - 1] + r[..|r| - 1];
      }
    }
  }

  lemma {:induction false} SubsequenceIsShorter(s: seq<Event>, t: seq<Event>)
    requires Subsequence(s, t)
    ensures |s| <= |t|
    ensures |s| == |t| ==> s == t
    decreases |t|
  {
    if s != [] {
      var t' := t[..|t| - 1];
      if Subsequence(s, t') {
        SubsequenceIsShorter(s, t');
      } else {
        SubsequenceIsShorter(s[..|s| - 1], t');
        assert s == s[..|s| - 1] + [s[|s| - 1]];
        assert t == t' + [t[|t| - 1]];
      }
    }
  }

  predicate Distinct(s: seq<Event>) {
    forall i, j :: 0 <= i < j < |s| ==> s[i] != s[j]
  }

  lemma {:induction false} SubsequenceMembers(s: seq<Event>, t: seq<Event>)
    requires Subsequence(s, t)
    ensures forall e <- s :: e in t
    ensures Distinct(t) ==> Distinct(s)
    decreases |t|
  {
    if s != [] {
      var t' := t[..|t| - 1];
      if Subsequence(s, t') {
        SubsequenceMembers(s, t');
      } else {
        SubsequenceMembers(s[..|s| - 1], t');
        assert s == s[..|s| - 1] + [s[|s| - 1]];
        if Distinct(t) {
          assert t[|t| - 1] !in t';
        }
      }
    }
  }

  lemma {:induction false} OwnOfLonger(log: seq<Event>, e: Event, from: nat, to: nat, channel: Channel)
    requires to <= |log|
    ensures Own(log + [e], from, to, channel) == Own(log, from, to, channel)
  {
    if to > from {
      OwnOfLonger(log, e, from, to - 1, channel);
    }
  }

  // ---- what every reachable state satisfies ----

  function Until(c: Sub, log: seq<Event>): nat {
    if c.upto.Some? then c.upto.value else |log|
  }

  /** Everything put into the buffer so far, read or not. */
  function Stream(c: Sub): seq<Event> {
    c.received + c.buffer
  }

  ghost predicate StreamOk(c: Sub, log: seq<Event>) {
    && c.from <= Until(c, log) <= |log|
    && |c.buffer| <= SLOTS
    && var own := Own(log, c.from, Until(c, log), c.channel);
    && Subsequence(Stream(c) + c.wire, own)
    && |Stream(c)| + |c.wire| + c.overflow + c.lost == |own|
  }

  /** The map lists exactly the open subscriptions and keeps no empty set. */
  ghost predicate MapOk(s: State) {
    && (forall channel <- s.subs :: s.subs[channel] != {})
    && (forall channel, i :: i in Listed(s.subs, channel) <==>
          i in s.chans && s.chans[i].upto.None? && s.chans[i].channel == channel)
  }

  ghost predicate Inv(s: State) {
    && MapOk(s)
    && (forall i <- s.chans :: StreamOk(s.chans[i], s.log))
    && (!s.redis ==> forall i <- s.chans :: s.chans[i].wire == [] && s.chans[i].lost == 0)
  }

  lemma PushKeepsStream(c: Sub, log: seq<Event>, e: Event)
    requires StreamOk(c, log) && c.upto.None? && c.wire == [] && c.channel == e.channel
    ensures StreamOk(Push(c, e), log + [e])
  {
    var own := Own(log, c.from, |log|, c.channel);
    OwnOfLonger(log, e, c.from, |log|, c.channel);
    assert Stream(c) + c.wire == Stream(c);
    assert Own(log + [e], c.from, |log| + 1, c.channel) == own + [e];
    if |c.buffer| < SLOTS {
      SubsequenceTakes(Stream(c), own, e);
      assert Stream(Push(c, e)) + [] == Stream(c) + [e];
    } else {
      SubsequenceSkips(Stream(c), own, e);
    }
  }

  lemma OwnGrows(log: seq<Event>, e: Event, from: nat, channel: Channel)
    requires from <= |log|
    ensures Own(log + [e], from, |log + [e]|, channel) ==
            Own(log, from, |log|, channel) + if e.channel == channel then [e] else []
  {
    OwnOfLonger(log, e, from, |log|, channel);
  }

  lemma WiredKeepsStream(c: Sub, log: seq<Event>, e: Event, heard: bool)
    requires StreamOk(c, log)
    ensures StreamOk(Wired(c, e, heard), log + [e])
  {
    var whole := Stream(c) + c.wire;
    if c.upto.Some? {
      OwnOfLonger(log, e, c.from, Until(c, log), c.channel);
    } else {
      var own := Own(log, c.from, |log|, c.channel);
      OwnGrows(log, e, c.from, c.channel);
      if c.channel != e.channel {
        assert own + [] == own;
      } else if heard && c.confirmed {
        SubsequenceTakes(whole, own, e);
        assert Stream(c) + (c.wire + [e]) == whole + [e];
        assert Stream(Wired(c, e, heard)) == Stream(c);
      } else {
        SubsequenceSkips(whole, own, e);
      }
    }
  }

  lemma OthersKeepStream(c: Sub, log: seq<Event>, e: Event)
    requires StreamOk(c, log) && (c.upto.Some? || c.channel != e.channel)
    ensures StreamOk(c, log + [e])
  {
    WiredKeepsStream(c, log, e, false);
  }

  lemma HeadOfWire(stream: seq<Event>, wire: seq<Event>)
    requires wire != []
    ensures stream + wire == (stream + [wire[0]]) + wire[1..]
  {}

  lemma PushedStream(c: Sub, e: Event)
    ensures Stream(Push(c, e)) == if |c.buffer| < SLOTS then Stream(c) + [e] else Stream(c)
  {
    assert c.received + (c.buffer + [e]) == (c.received + c.buffer) + [e];
  }

  lemma WithoutHead(stream: seq<Event>, wire: seq<Event>, own: seq<Event>)
    requires wire != [] && Subsequence(stream + wire, own)
    ensures Subsequence(stream + wire[1..], own)
  {
    HeadOfWire(stream, wire);
    SubsequenceDrops(stream + [wire[0]], wire[1..], own);
    assert (stream + [wire[0]])[..|stream + [wire[0]]| - 1] == stream;
  }

  /** An event leaves the head of the wire: into the buffer, or dropped. */
  lemma UnwiringKeepsStream(c: Sub, log: seq<Event>)
    requires StreamOk(c, log) && c.wire != []
    ensures StreamOk(Push(c.(wire := c.wire[1..]), c.wire[0]), log)
    ensures StreamOk(c.(wire := c.wire[1..], lost := c.lost + 1), log)
  {
    HeadOfWire(Stream(c), c.wire);
    PushedStream(c.(wire := c.wire[1..]), c.wire[0]);
    WithoutHead(Stream(c), c.wire, Own(log, c.from, Until(c, log), c.channel));
  }

  lemma PublishKeepsStream(s: State, e: Event, heard: set<Id>, i: Id)
    requires Inv(s) && i in s.chans
    ensures StreamOk(Apply(s, Publish(e, heard)).chans[i], s.log + [e])
  {
    if s.redis {
      WiredKeepsStream(s.chans[i], s.log, e, i in heard);
    } else if i in Listed(s.subs, e.channel) {
      PushKeepsStream(s.chans[i], s.log, e);
    } else {
      OthersKeepStream(s.chans[i], s.log, e);
    }
  }

  lemma PublishKeepsMap(s: State, e: Event, heard: set<Id>)
    requires MapOk(s)
    ensures MapOk(Apply(s, Publish(e, heard)))
  {
    var t := Apply(s, Publish(e, heard));
    forall other, j ensures j in Listed(t.subs, other) <==>
                              j in t.chans && t.chans[j].upto.None? && t.chans[j].channel == other
    {
      assert j in Listed(s.subs, other) <==> j in s.chans && s.chans[j].upto.None? && s.chans[j].channel == other;
    }
  }

  lemma PublishKeepsInv(s: State, e: Event, heard: set<Id>)
    requires Inv(s)
    ensures Inv(Apply(s, Publish(e, heard)))
  {
    var t := Apply(s, Publish(e, heard));
    PublishKeepsMap(s, e, heard);
    forall i | i in t.chans ensures StreamOk(t.chans[i], t.log) {
      PublishKeepsStream(s, e, heard, i);
    }
  }

  lemma SubscribeKeepsInv(s: State, i: Id, channel: Channel)
    requires Inv(s)
    ensures Inv(Apply(s, Subscribe(i, channel)))
  {
    var t := Apply(s, Subscribe(i, channel));
    if i !in s.chans {
      forall other, j ensures j in Listed(t.subs, other) <==>
                                j in t.chans && t.chans[j].upto.None? && t.chans[j].channel == other
      {
        assert j in Listed(s.subs, other) <==> j in s.chans && s.chans[j].upto.None? && s.chans[j].channel == other;
      }
    }
  }

  lemma UnsubscribeKeepsMap(s: State, i: Id)
    requires MapOk(s)
    ensures MapOk(Apply(s, Unsubscribe(i)))
  {
    var t := Apply(s, Unsubscribe(i));
    if i in s.chans && s.chans[i].upto.None? {
      forall other, j ensures j in Listed(t.subs, other) <==>
                                j in t.chans && t.chans[j].upto.None? && t.chans[j].channel == other
      {
        assert j in Listed(s.subs, other) <==> j in s.chans && s.chans[j].upto.None? && s.chans[j].channel == other;
      }
    }
  }

  /** A step that changes one subscription only, and not what the map is about. */
  lemma UpdateKeepsInv(s: State, i: Id, c: Sub)
    requires Inv(s) && i in s.chans && StreamOk(c, s.log)
    requires c.upto == s.chans[i].upto && c.channel == s.chans[i].channel
    requires !s.redis ==> c.wire == [] && c.lost == 0
    ensures Inv(s.(chans := s.chans[i := c]))
  {
    var t := s.(chans := s.chans[i := c]);
    forall other, j ensures j in Listed(t.subs, other) <==>
                              j in t.chans && t.chans[j].upto.None? && t.chans[j].channel == other
    {
      assert j in Listed(s.subs, other) <==> j in s.chans && s.chans[j].upto.None? && s.chans[j].channel == other;
    }
  }

  lemma ReceiveKeepsInv(s: State, i: Id)
    requires Inv(s)
    ensures Inv(Apply(s, Receive(i)))
  {
    if i in s.chans && s.chans[i].buffer != [] {
      var c := s.chans[i];
      assert c.received + [c.buffer[0]] + c.buffer[1..] == Stream(c);
      UpdateKeepsInv(s, i, c.(received := c.received + [c.buffer[0]], buffer := c.buffer[1..]));
    }
  }

  lemma WireKeepsInv(s: State, i: Id)
    requires Inv(s)
    ensures Inv(Apply(s, Forward(i))) && Inv(Apply(s, Cut(i)))
  {
    if i in s.chans && s.chans[i].wire != [] {
      var c := s.chans[i];
      UnwiringKeepsStream(c, s.log);
      UpdateKeepsInv(s, i, Push(c.(wire := c.wire[1..]), c.wire[0]));
      UpdateKeepsInv(s, i, c.(wire := c.wire[1..], lost := c.lost + 1));
    }
  }

  lemma ConfirmKeepsInv(s: State, i: Id)
    requires Inv(s)
    ensures Inv(Apply(s, Confirm(i)))
  {
    if i in s.chans && s.redis {
      UpdateKeepsInv(s, i, s.chans[i].(confirmed := true));
    }
  }

  lemma UnsubscribeKeepsInv(s: State, i: Id)
    requires Inv(s)
    ensures Inv(Apply(s, Unsubscribe(i)))
  {
    UnsubscribeKeepsMap(s, i);
  }

  lemma StepKeepsInv(s: State, a: Step)
    requires Inv(s)
    ensures Inv(Apply(s, a))
  {
    match a
    case Subscribe(i, channel) => SubscribeKeepsInv(s, i, channel);
    case Confirm(i) => ConfirmKeepsInv(s, i);
    case Publish(e, heard) => PublishKeepsInv(s, e, heard);
    case Forward(i) => WireKeepsInv(s, i);
    case Cut(i) => WireKeepsInv(s, i);
    case Receive(i) => ReceiveKeepsInv(s, i);
    case Unsubscribe(i) => UnsubscribeKeepsInv(s, i);
  }

  lemma {:induction false} RunKeepsInv(redis: bool, steps: seq<Step>)
    ensures Inv(Run(Init(redis), steps)) && Run(Init(redis), steps).redis == redis
  {
    if steps != [] {
      RunKeepsInv(redis, steps[..|steps| - 1]);
      StepKeepsInv(Run(Init(redis), steps[..|steps| - 1]), steps[|steps| - 1]);
    }
  }

  // ---- the results ----

  /** On either transport, what a subscriber has been given is an in-order subsequence of the events published to
      its own channel between its subscribe and its unsubscribe, without duplicates if no event was published
      twice, and nothing else. */
  lemma {:induction false} StreamIsSubsequence(redis: bool, steps: seq<Step>, i: Id)
    requires i in Run(Init(redis), steps).chans
    ensures var s := Run(Init(redis), steps);
            var c := s.chans[i];
            c.from <= Until(c, s.log) <= |s.log| &&
            var own := Own(s.log, c.from, Until(c, s.log), c.channel);
            && Subsequence(Stream(c), own)
            && (Distinct(own) ==> Distinct(Stream(c)))
            && forall e <- Stream(c) :: e in own
  {
    RunKeepsInv(redis, steps);
    var s := Run(Init(redis), steps);
    var c := s.chans[i];
    PrefixIsSubsequence(Stream(c), c.wire, Own(s.log, c.from, Until(c, s.log), c.channel));
    SubsequenceMembers(Stream(c), Own(s.log, c.from, Until(c, s.log), c.channel));
  }

  lemma {:induction false} PrefixIsSubsequence(s: seq<Event>, r: seq<Event>, t: seq<Event>)
    requires Subsequence(s + r, t)
    ensures Subsequence(s, t)
    decreases |r|, |t|
  {
    if r == [] {
      assert s + r == s;
    } else {
      var t' := t[..|t| - 1];
      if Subsequence(s + r, t') {
        PrefixIsSubsequence(s, r, t');
      } else {
        assert (s + r)[..|s + r| - 1] == s + r[..|r| - 1];
        PrefixIsSubsequence(s, r[..|r| - 1], t');
      }
    }
  }

  /** It is all of them exactly if nothing was dropped; without Redis, exactly if no event ever met a full
      buffer. */
  lemma {:induction false} CompleteExactly(redis: bool, steps: seq<Step>, i: Id)
    requires i in Run(Init(redis), steps).chans
    ensures var s := Run(Init(redis), steps);
            var c := s.chans[i];
            c.from <= Until(c, s.log) <= |s.log| &&
            var own := Own(s.log, c.from, Until(c, s.log), c.channel);
            && (Stream(c) + c.wire == own <==> c.overflow == 0 && c.lost == 0)
            && (!redis ==> (Stream(c) == own <==> c.overflow == 0))
  {
    RunKeepsInv(redis, steps);
    var s := Run(Init(redis), steps);
    var c := s.chans[i];
    SubsequenceIsShorter(Stream(c) + c.wire, Own(s.log, c.from, Until(c, s.log), c.channel));
    assert c.wire == [] ==> Stream(c) + c.wire == Stream(c);
  }

  /** An event is counted as overflow only when its buffer holds 32. */
  lemma {:induction false} OverflowMeansFull(redis: bool, steps: seq<Step>, a: Step, i: Id)
    requires i in Run(Init(redis), steps).chans
    requires Apply(Run(Init(redis), steps), a).chans[i].overflow != Run(Init(redis), steps).chans[i].overflow
    ensures |Run(Init(redis), steps).chans[i].buffer| == 32
  {
    RunKeepsInv(redis, steps);
  }

  /** The map holds exactly the open subscriptions, under their own channel, and no empty set. */
  lemma {:induction false} MapHoldsOpenSubscriptions(redis: bool, steps: seq<Step>, channel: Channel, i: Id)
    ensures var s := Run(Init(redis), steps);
            && (i in Listed(s.subs, channel) <==>
                i in s.chans && s.chans[i].upto.None? && s.chans[i].channel == channel)
            && (channel in s.subs ==> s.subs[channel] != {})
  {
    RunKeepsInv(redis, steps);
  }

  lemma PushedToListed(s: State, e: Event, chans: map<Id, Sub>)
    requires !s.redis && chans.Keys == s.chans.Keys
    requires forall i <- s.chans ::
               chans[i] == if i in Listed(s.subs, e.channel) then Push(s.chans[i], e) else s.chans[i]
    ensures s.(log := s.log + [e], chans := chans) == Apply(s, Publish(e, {}))
  {
    assert chans == Apply(s, Publish(e, {})).chans;
  }

  // ---- the broker over mutable state ----

  /** `log` is history: methods only record positions in it. */
  class Broker {
    const redis: bool
    var log: seq<Event>
    var subs: map<Channel, set<Id>>
    var chans: map<Id, Sub>

    ghost function Now(): State
      reads this
    {
      State(redis, log, subs, chans)
    }

    constructor (redis: bool)
      ensures Now() == Init(redis)
    {
      this.redis, log, subs, chans := redis, [], map[], map[];
    }

    method Open(i: Id, channel: Channel)
      requires i !in chans
      modifies this`subs, this`chans
      ensures Now() == Apply(old(Now()), Subscribe(i, channel))
    {
      if channel !in subs {
        subs := subs[channel := {}];
      }
      subs := subs[channel := subs[channel] + {i}];
      chans := chans[i := Sub(channel, [], [], [], false, |log|, None, 0, 0)];
    }

    /** The function Subscribe returns; it acts once, and leaves no empty set behind. */
    method Close(i: Id)
      requires i in chans
      modifies this`subs, this`chans
      ensures Now() == Apply(old(Now()), Unsubscribe(i))
      ensures old(chans)[i].upto.Some? ==> Now() == old(Now())
    {
      if chans[i].upto.Some? { return; }
      var channel := chans[i].channel;
      if channel in subs {
        subs := subs[channel := subs[channel] - {i}];
        if subs[channel] == {} {
          subs := subs - {channel};
        }
      }
      chans := chans[i := chans[i].(upto := Some(|log|))];
      assert subs == Without(old(subs), channel, i);
    }

    /** A send that drops the event instead of waiting. */
    method Offer(i: Id, e: Event)
      requires i in chans
      modifies this`chans
      ensures chans == old(chans)[i := Push(old(chans)[i], e)]
    {
      var c := chans[i];
      if |c.buffer| < SLOTS {
        chans := chans[i := c.(buffer := c.buffer + [e])];
      } else {
        chans := chans[i := c.(overflow := c.overflow + 1)];
      }
    }

    /** Puts the event into the buffer of every listed subscriber, dropping it where the buffer is full. */
    method PublishLocal(e: Event)
      requires !redis && forall i <- Listed(subs, e.channel) :: i in chans
      modifies this`log, this`chans
      ensures Now() == Apply(old(Now()), Publish(e, {}))
    {
      log := log + [e];
      var listed := Listed(subs, e.channel);
      var rest := listed;
      ghost var was := chans;
      while rest != {}
        invariant rest <= listed && chans.Keys == was.Keys && log == old(log) + [e]
        invariant forall i <- was :: chans[i] == if i in listed - rest then Push(was[i], e) else was[i]
        decreases |rest|
      {
        var i :| i in rest;
        rest := rest - {i};
        Offer(i, e);
      }
      assert listed - rest == listed;
      PushedToListed(old(Now()), e, chans);
    }

    /** One turn of the forwarding loop. */
    method ForwardOne(i: Id)
      requires i in chans && chans[i].wire != []
      modifies this`chans
      ensures Now() == Apply(old(Now()), Forward(i))
    {
      var e := chans[i].wire[0];
      chans := chans[i := chans[i].(wire := chans[i].wire[1..])];
      Offer(i, e);
    }
  }
}
