/** The application's Pub/Sub subscriptions: a table from subscription name
    to pull subscription, created on first use, filled by the routers'
    registrations, and started and stopped as a whole. The subscriptions'
    own work belongs to the messaging library; here starting and stopping
    one is an event in a log kept by the registry. */
module AppState {
  import opened Wrappers

  /** The callback a subscription hands its messages to (a message router).
      Its behaviour is not part of this model. */
  class SubscriptionProcessor {
    constructor ()
    {
    }
  }

  /** A pull subscription: its name and its processor. */
  class SubscriptionPull {
    const name: string
    const processor: SubscriptionProcessor

    constructor (name: string, processor: SubscriptionProcessor)
      ensures this.name == name && this.processor == processor
    {
      this.name := name;
      this.processor := processor;
    }
  }

  /** What the registry asks of a subscription: `run()` or `stop()`. */
  datatype Action = Start | Stop

  /** One call made on a registered subscription, with the name it is
      registered under. */
  datatype Event = Event(action: Action, name: string, subscription: SubscriptionPull)

  predicate Distinct<T(==)>(s: seq<T>)
  {
    forall i, j :: 0 <= i < j < |s| ==> s[i] != s[j]
  }

  /** A dictionary as Python keeps it: the keys in insertion order, and the
      value of each key. */
  datatype Registry = Registry(names: seq<string>, table: map<string, SubscriptionPull>)

  /** Each key is listed once, and exactly the listed keys have a value. */
  predicate Wellformed(r: Registry)
  {
    Distinct(r.names) && (forall n :: n in r.table ==> n in r.names) && (forall n :: n in r.names ==> n in r.table)
  }

  const EmptyRegistry := Registry([], map[])

  /** `table[k] = v`: a new key goes to the end of the order; an existing
      key keeps its place and gets the new value. */
  function Put(r: Registry, k: string, v: SubscriptionPull): (r': Registry)
    ensures Wellformed(r) ==> Wellformed(r')
    ensures k in r'.table && r'.table[k] == v
    ensures forall n :: n != k ==> (n in r'.table <==> n in r.table)
    ensures forall n :: n != k && n in r.table ==> r'.table[n] == r.table[n]
    ensures r.names <= r'.names
    ensures Wellformed(r) ==> (k in r.table <==> |r'.names| == |r.names|)
  {
    if k in r.table then Registry(r.names, r.table[k := v])
    else Registry(r.names + [k], r.table[k := v])
  }

  /** The calls one pass over the entries makes, in the table's order. */
  function Sweep(action: Action, names: seq<string>, table: map<string, SubscriptionPull>): (events: seq<Event>)
    requires forall n :: n in names ==> n in table
    ensures |events| == |names|
    ensures forall i :: 0 <= i < |names| ==> events[i] == Event(action, names[i], table[names[i]])
  {
    if names == [] then []
    else
      var last := names[|names| - 1];
      Sweep(action, names[..|names| - 1], table) + [Event(action, last, table[last])]
  }

  /** A pass over a well-formed table calls every registered subscription
      exactly once, with the action asked for, and calls nothing else. */
  lemma SweepCallsEachOnce(action: Action, r: Registry)
    requires Wellformed(r)
    ensures forall e :: e in Sweep(action, r.names, r.table) ==>
              e.action == action && e.name in r.table && e.subscription == r.table[e.name]
    ensures forall n :: n in r.table ==> exists i :: 0 <= i < |r.names| && Sweep(action, r.names, r.table)[i].name == n
    ensures forall i, j :: 0 <= i < j < |r.names| ==>
              Sweep(action, r.names, r.table)[i].name != Sweep(action, r.names, r.table)[j].name
  {
    var events := Sweep(action, r.names, r.table);
    forall n | n in r.table
      ensures exists i :: 0 <= i < |r.names| && events[i].name == n
    {
      var i :| 0 <= i < |r.names| && r.names[i] == n;
      assert events[i].name == n;
    }
  }

  /** The subscriptions of the application. `created` says whether the
      table exists yet; the property that reads it creates it empty. */
  class AppSubscriptions {
    var created: bool
    var names: seq<string>
    var table: map<string, SubscriptionPull>
    var events: seq<Event>

    ghost predicate Valid()
      reads this
    {
      (created ==> Wellformed(Registry(names, table))) &&
      (!created ==> names == [] && table == map[])
    }

    /** The table as the property returns it: empty until it is created,
        and in a valid registry always a well-formed table that agrees with
        the fields, whether or not it exists yet. */
    function Current(): (r: Registry)
      reads this
      ensures !created ==> r == EmptyRegistry
      ensures Valid() ==> Wellformed(r) && r.names == names && r.table == table
    {
      if created then Registry(names, table) else EmptyRegistry
    }

    constructor ()
      ensures Valid() && !created && events == []
    {
      created := false;
      names := [];
      table := map[];
      events := [];
    }

    /** The `subscriptions` property: the table, created empty on first
        access and the same table afterwards. */
    method Subscriptions() returns (subs: Registry)
      requires Valid()
      modifies this
      ensures Valid() && created
      ensures Current() == old(Current()) && subs == Current()
      ensures events == old(events)
    {
      if !created {
        created := true;
        names := [];
        table := map[];
      }
      subs := Registry(names, table);
    }

    /** `add_subscription`: with no name, or an empty one, nothing happens
        and the answer is `None`; otherwise a new subscription is stored
        under the name, replacing any earlier one, and returned. */
    method AddSubscription(subscriptionName: Option<string>, processor: SubscriptionProcessor)
      returns (sub: Option<SubscriptionPull>)
      requires Valid()
      modifies this
      ensures Valid() && events == old(events)
      ensures subscriptionName.None? || subscriptionName == Some("") ==>
                sub.None? && created == old(created) && Current() == old(Current())
      ensures subscriptionName.Some? && subscriptionName != Some("") ==>
                sub.Some? && fresh(sub.value) && created &&
                sub.value.name == subscriptionName.value && sub.value.processor == processor &&
                Current() == Put(old(Current()), subscriptionName.value, sub.value)
    {
      if subscriptionName.Some? && subscriptionName.value != "" {
        var subscription := new SubscriptionPull(subscriptionName.value, processor);
        var current := Subscriptions();
        var next := Put(current, subscriptionName.value, subscription);
        names, table := next.names, next.table;
        sub := Some(subscription);
      } else {
        sub := None;
      }
    }

    /** `add_topic_subscription`: the subscription of a topic is named
        after it with the suffix "-sub"; no topic, or an empty one, gives
        `None` and changes nothing. */
    method AddTopicSubscription(topicName: Option<string>, processor: SubscriptionProcessor)
      returns (sub: Option<SubscriptionPull>)
      requires Valid()
      modifies this
      ensures Valid() && events == old(events)
      ensures topicName.None? || topicName == Some("") ==>
                sub.None? && created == old(created) && Current() == old(Current())
      ensures topicName.Some? && topicName != Some("") ==>
                sub.Some? && fresh(sub.value) && created &&
                sub.value.name == topicName.value + "-sub" && sub.value.processor == processor &&
                Current() == Put(old(Current()), topicName.value + "-sub", sub.value)
    {
      if topicName.Some? && topicName.value != "" {
        sub := AddSubscription(Some(topicName.value + "-sub"), processor);
      } else {
        sub := None;
      }
    }

    /** One pass over the entries in order, calling `action` on each. */
    method SweepAll(action: Action)
      requires Valid()
      modifies this
      ensures Valid() && created && Current() == old(Current())
      ensures events == old(events) + Sweep(action, names, table)
    {
      var subs := Subscriptions();
      var i := 0;
      while i < |subs.names|
        invariant 0 <= i <= |subs.names|
        invariant Valid() && created && Registry(names, table) == subs
        invariant events == old(events) + Sweep(action, subs.names[..i], subs.table)
      {
        var name := subs.names[i];
        events := events + [Event(action, name, subs.table[name])];
        assert subs.names[..i + 1][..i] == subs.names[..i];
        i := i + 1;
      }
      assert subs.names[..i] == subs.names;
    }

    /** `run_subscriptions`: every registered subscription is started once,
        in the table's order. */
    method RunSubscriptions()
      requires Valid()
      modifies this
      ensures Valid() && created && Current() == old(Current())
      ensures events == old(events) + Sweep(Start, names, table)
    {
      SweepAll(Start);
    }

    /** `stop_subscriptions`: every registered subscription is stopped
        once, in the table's order. */
    method StopSubscriptions()
      requires Valid()
      modifies this
      ensures Valid() && created && Current() == old(Current())
      ensures events == old(events) + Sweep(Stop, names, table)
    {
      SweepAll(Stop);
    }

    /** Entering the context starts every subscription and yields the
        registry itself. */
    method Enter() returns (self: AppSubscriptions)
      requires Valid()
      modifies this
      ensures self == this
      ensures Valid() && created && Current() == old(Current())
      ensures events == old(events) + Sweep(Start, names, table)
    {
      RunSubscriptions();
      self := this;
    }

    /** Leaving the context stops every subscription; an exception that
        ends the block is not suppressed. */
    method Exit()
      requires Valid()
      modifies this
      ensures Valid() && created && Current() == old(Current())
      ensures events == old(events) + Sweep(Stop, names, table)
    {
      StopSubscriptions();
    }
  }

  /** Registering two different names keeps both, in registration order. */
  lemma PutTwoKeepsOrder(r: Registry, k1: string, v1: SubscriptionPull, k2: string, v2: SubscriptionPull)
    requires Wellformed(r) && k1 != k2 && k1 !in r.table && k2 !in r.table
    ensures Put(Put(r, k1, v1), k2, v2).names == r.names + [k1, k2]
    ensures Put(Put(r, k1, v1), k2, v2).table == r.table[k1 := v1][k2 := v2]
  {
  }

  /** Registering a name again replaces its subscription without moving it
      in the order. */
  lemma PutAgainReplaces(r: Registry, k: string, v1: SubscriptionPull, v2: SubscriptionPull)
    ensures Put(Put(r, k, v1), k, v2) == Put(r, k, v2)
  {
  }
}
