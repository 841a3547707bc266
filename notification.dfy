/** The daily expiry check: the worker lists the active subscriptions whose
    expiration date falls in the coming week and posts one notification per
    subscription, keyed by the Java hash code of its service name. The clock
    and calendar readings are parameters, and the notification manager is a
    map from notification id to the notification last posted under it, with
    the log of `notify` calls in order. */
module Notification {
  import opened Wrappers
  import opened Entity
  import opened Dao
  import opened Repository

  // ---------------------------------------------------------------------------
  // String.hashCode

  const TwoTo31: int := 0x8000_0000
  const TwoTo32: int := 0x1_0000_0000

  /** The UTF-16 code units of a string, as Java stores it. */
  function Utf16(s: string): (units: seq<int>)
    ensures |units| >= |s|
    ensures forall i :: 0 <= i < |units| ==> 0 <= units[i] < 0x1_0000
  {
    if s == [] then []
    else
      var c := s[0] as int;
      var first := if c < 0x1_0000 then [c]
                   else [0xD800 + (c - 0x1_0000) / 0x400, 0xDC00 + (c - 0x1_0000) % 0x400];
      first + Utf16(s[1..])
  }

  /** `h = 31 * h + unit` over the units, in 32-bit unsigned arithmetic. */
  function HashUnits(units: seq<int>): (h: int)
    ensures 0 <= h < TwoTo32
  {
    if units == [] then 0
    else (31 * HashUnits(units[..|units| - 1]) + units[|units| - 1]) % TwoTo32
  }

  /** `String.hashCode()`: the unsigned hash read as a signed 32-bit int. */
  function HashCode(s: string): (h: int)
    ensures -TwoTo31 <= h < TwoTo31
    ensures (h + TwoTo32) % TwoTo32 == HashUnits(Utf16(s))
  {
    var u := HashUnits(Utf16(s));
    if u < TwoTo31 then u else u - TwoTo32
  }

  /** The hash of a two-letter name of code points below U+10000. */
  lemma HashOfTwo(s: string)
    requires |s| == 2 && (s[0] as int) < 0x1_0000 && (s[1] as int) < 0x1_0000
    ensures HashUnits(Utf16(s)) == (31 * (s[0] as int) + s[1] as int) % TwoTo32
  {
    var u0, u1 := s[0] as int, s[1] as int;
    assert Utf16(s[1..][1..]) == [];
    assert Utf16(s[1..]) == [u1];
    assert Utf16(s) == [u0, u1];
    assert [u0, u1][..1] == [u0];
    assert [u0][..0] == [];
    assert HashUnits([u0]) == u0;
  }

  /** Two different service names with the same notification id: the second
      notification replaces the first. */
  lemma DistinctNamesCanCollide()
    ensures "Aa" != "BB" && HashCode("Aa") == HashCode("BB") == 2112
  {
    HashOfTwo("Aa");
    HashOfTwo("BB");
  }

  // ---------------------------------------------------------------------------
  // Notifications

  const ChannelId: string := "subscription_notification_channel"
  const Title: string := "サブスク期限通知"
  const TextSuffix: string := " の期限が近づいています"

  /** What is posted: the channel, the title and the text; the icon, the
      high priority and auto-cancel are the same for every notification. */
  datatype Notification = Notification(channelId: string, title: string, text: string)

  /** The notification for one service: the text starts with the name. */
  function NotificationFor(serviceName: string): (n: Notification)
    ensures n.channelId == ChannelId && n.title == Title
    ensures serviceName <= n.text && n.text[|serviceName|..] == TextSuffix
  {
    Notification(ChannelId, Title, serviceName + TextSuffix)
  }

  /** One `notify` call. */
  datatype Posted = Posted(id: int, notification: Notification)

  /** The call that `showNotification` makes for a subscription. */
  function PostFor(s: Subscription): (p: Posted)
    ensures p.id == HashCode(s.serviceName) && p.notification == NotificationFor(s.serviceName)
  {
    Posted(HashCode(s.serviceName), NotificationFor(s.serviceName))
  }

  /** The calls for a list of subscriptions. */
  function PostsFor(subs: seq<Subscription>): (ps: seq<Posted>)
    ensures |ps| == |subs|
  {
    if subs == [] then [] else PostsFor(subs[..|subs| - 1]) + [PostFor(subs[|subs| - 1])]
  }

  /** Exactly one call per subscription, in list order. */
  lemma {:induction false} PostsInListOrder(subs: seq<Subscription>)
    ensures forall i :: 0 <= i < |subs| ==> PostsFor(subs)[i] == PostFor(subs[i])
    decreases |subs|
  {
    if subs != [] {
      var init := subs[..|subs| - 1];
      PostsInListOrder(init);
      assert forall i :: 0 <= i < |init| ==> subs[i] == init[i];
    }
  }

  /** The manager's map after posting for each of `subs` in turn. */
  function PostAll(m: map<int, Notification>, subs: seq<Subscription>): map<int, Notification> {
    if subs == [] then m
    else
      var p := PostFor(subs[|subs| - 1]);
      PostAll(m, subs[..|subs| - 1])[p.id := p.notification]
  }

  /** Posting for one more subscription is one more `notify`. */
  lemma PostNext(m: map<int, Notification>, subs: seq<Subscription>, i: int)
    requires 0 <= i < |subs|
    ensures PostAll(m, subs[..i + 1]) == PostAll(m, subs[..i])[PostFor(subs[i]).id := PostFor(subs[i]).notification]
    ensures PostsFor(subs[..i + 1]) == PostsFor(subs[..i]) + [PostFor(subs[i])]
  {
    assert subs[..i + 1][..i] == subs[..i];
  }

  /** The notification ids that posting for `subs` uses. */
  function NotifiedIds(subs: seq<Subscription>): set<int> {
    set i | 0 <= i < |subs| :: HashCode(subs[i].serviceName)
  }

  lemma NotifiedIdsSnoc(subs: seq<Subscription>)
    requires subs != []
    ensures NotifiedIds(subs) == NotifiedIds(subs[..|subs| - 1]) + {HashCode(subs[|subs| - 1].serviceName)}
  {
    var init := subs[..|subs| - 1];
    forall h | h in NotifiedIds(subs)
      ensures h in NotifiedIds(init) || h == HashCode(subs[|subs| - 1].serviceName)
    {
      var i :| 0 <= i < |subs| && HashCode(subs[i].serviceName) == h;
      if i < |subs| - 1 { assert init[i] == subs[i]; }
    }
    forall h | h in NotifiedIds(init) ensures h in NotifiedIds(subs) {
      var i :| 0 <= i < |init| && HashCode(init[i].serviceName) == h;
      assert subs[i] == init[i];
    }
  }

  /** Posting adds exactly the ids of the listed names to those already
      shown. */
  lemma {:induction false} PostAllKeys(m: map<int, Notification>, subs: seq<Subscription>)
    ensures PostAll(m, subs).Keys == m.Keys + NotifiedIds(subs)
    decreases |subs|
  {
    if subs != [] {
      PostAllKeys(m, subs[..|subs| - 1]);
      NotifiedIdsSnoc(subs);
    }
  }

  /** Posting overwrites what was shown under the ids it uses and keeps the
      rest: the result is the old map overlaid with the posts on their own. */
  lemma {:induction false} PostAllOverlay(m: map<int, Notification>, subs: seq<Subscription>)
    ensures PostAll(m, subs) == m + PostAll(map[], subs)
    decreases |subs|
  {
    if subs != [] {
      var init := subs[..|subs| - 1];
      var p := PostFor(subs[|subs| - 1]);
      PostAllOverlay(m, init);
      assert (m + PostAll(map[], init))[p.id := p.notification] == m + PostAll(map[], init)[p.id := p.notification];
    }
  }

  /** Running the check twice over the same listing leaves the manager as one
      run does: same ids, same notifications. */
  lemma PostAllIdempotent(m: map<int, Notification>, subs: seq<Subscription>)
    ensures PostAll(PostAll(m, subs), subs) == PostAll(m, subs)
    ensures PostAll(PostAll(m, subs), subs).Keys == PostAll(m, subs).Keys
  {
    var p := PostAll(map[], subs);
    PostAllOverlay(m, subs);
    PostAllOverlay(m + p, subs);
    assert (m + p) + p == m + p;
  }

  /** Never more ids than subscriptions, and strictly fewer as soon as two of
      them share a service name: equal names overwrite each other. */
  lemma {:induction false} EqualNamesCollide(subs: seq<Subscription>, i: int, j: int)
    requires 0 <= i < j < |subs| && subs[i].serviceName == subs[j].serviceName
    ensures |NotifiedIds(subs)| < |subs|
    ensures |PostAll(map[], subs).Keys| < |subs|
    decreases |subs|
  {
    PostAllKeys(map[], subs);
    var init := subs[..|subs| - 1];
    NotifiedIdsSnoc(subs);
    if j < |subs| - 1 {
      EqualNamesCollide(init, i, j);
    } else {
      assert HashCode(init[i].serviceName) in NotifiedIds(init);
      NotifiedIdsAtMost(init);
    }
  }

  lemma {:induction false} NotifiedIdsAtMost(subs: seq<Subscription>)
    ensures |NotifiedIds(subs)| <= |subs|
    decreases |subs|
  {
    if subs != [] {
      NotifiedIdsAtMost(subs[..|subs| - 1]);
      NotifiedIdsSnoc(subs);
    }
  }

  // ---------------------------------------------------------------------------
  // The manager and the worker

  class NotificationManager {
    var posted: map<int, Notification>
    var log: seq<Posted>

    constructor ()
      ensures posted == map[] && log == []
    {
      posted := map[];
      log := [];
    }

    /** `notify(id, notification)`: replaces whatever is shown under `id`. */
    method Notify(id: int, notification: Notification)
      modifies this
      ensures posted == old(posted)[id := notification]
      ensures log == old(log) + [Posted(id, notification)]
    {
      posted := posted[id := notification];
      log := log + [Posted(id, notification)];
    }
  }

  datatype WorkResult = WorkSucceeded | WorkFailed

  class NotificationWorker {
    const repository: SubscriptionRepository
    const manager: NotificationManager
    /** The calendar's "add 7 to DAY_OF_MONTH", on millisecond readings. */
    const plusSevenDays: int -> int

    /** Adding seven days moves every reading forward. */
    ghost predicate Valid() {
      forall d :: d < plusSevenDays(d)
    }

    constructor (repository: SubscriptionRepository, manager: NotificationManager,
                 plusSevenDays: int -> int)
      requires forall d :: d < plusSevenDays(d)
      ensures Valid()
      ensures this.repository == repository && this.manager == manager
      ensures this.plusSevenDays == plusSevenDays
    {
      this.repository := repository;
      this.manager := manager;
      this.plusSevenDays := plusSevenDays;
    }

    /** `showNotification`: one `notify`, keyed by the name's hash code. The
        expiration date is passed but not used. */
    method ShowNotification(serviceName: string, expirationDate: Option<int>)
      modifies manager
      ensures manager.posted == old(manager.posted)[HashCode(serviceName) := NotificationFor(serviceName)]
      ensures manager.log == old(manager.log) + [Posted(HashCode(serviceName), NotificationFor(serviceName))]
    {
      var notification := NotificationFor(serviceName);
      manager.Notify(HashCode(serviceName), notification);
    }

    /** The `forEach` of the check: `showNotification` for each subscription
        of `subs`, in order. */
    method NotifyEach(subs: seq<Subscription>)
      modifies manager
      ensures manager.posted == PostAll(old(manager.posted), subs)
      ensures manager.log == old(manager.log) + PostsFor(subs)
    {
      ghost var shown, calls := manager.posted, manager.log;
      for i := 0 to |subs|
        invariant manager.posted == PostAll(shown, subs[..i])
        invariant manager.log == calls + PostsFor(subs[..i])
      {
        ShowNotification(subs[i].serviceName, subs[i].expirationDate);
        PostNext(shown, subs, i);
        assert manager.log == calls + (PostsFor(subs[..i]) + [PostFor(subs[i])]);
      }
      assert subs[..|subs|] == subs;
    }

    /** `checkExpiringSubscriptions`: the window runs from the clock reading
        `today` to seven calendar days later, both ends included; one
        `notify` per listed subscription, in list order. `queryFails` stands for the query
        throwing, which ends the check before any notification. The store
        is only read. */
    method CheckExpiringSubscriptions(today: int, queryFails: bool)
      returns (r: Outcome<DbError>)
      requires Valid()
      modifies manager
      ensures repository.dao.rows == old(repository.dao.rows)
      ensures r == (if queryFails then Fail(StorageFailure) else Pass)
      ensures queryFails ==> manager.posted == old(manager.posted) && manager.log == old(manager.log)
      ensures !queryFails ==>
        var subs := Dao.GetSubscriptionsExpiringBetween(repository.dao.rows, today, plusSevenDays(today));
        manager.posted == PostAll(old(manager.posted), subs)
        && manager.log == old(manager.log) + PostsFor(subs)
    {
      if queryFails {
        return Fail(StorageFailure);
      }
      var oneWeekLater := plusSevenDays(today);
      var expiringSubscriptions := repository.GetSubscriptionsExpiringBetween(today, oneWeekLater);
      NotifyEach(expiringSubscriptions);
      r := Pass;
    }

    /** `doWork`: success when the check completes, failure when it throws;
        no retry. */
    method DoWork(today: int, queryFails: bool) returns (result: WorkResult)
      requires Valid()
      modifies manager
      ensures repository.dao.rows == old(repository.dao.rows)
      ensures result == (if queryFails then WorkFailed else WorkSucceeded)
      ensures queryFails ==> manager.posted == old(manager.posted) && manager.log == old(manager.log)
      ensures !queryFails ==>
        var subs := Dao.GetSubscriptionsExpiringBetween(repository.dao.rows, today, plusSevenDays(today));
        manager.posted == PostAll(old(manager.posted), subs)
        && manager.log == old(manager.log) + PostsFor(subs)
        && manager.posted.Keys == old(manager.posted).Keys + NotifiedIds(subs)
        && (subs == [] ==> manager.posted == old(manager.posted) && manager.log == old(manager.log))
    {
      var checked := CheckExpiringSubscriptions(today, queryFails);
      if checked.Pass? {
        PostAllKeys(old(manager.posted), Dao.GetSubscriptionsExpiringBetween(repository.dao.rows, today, plusSevenDays(today)));
        result := WorkSucceeded;
      } else {
        result := WorkFailed;
      }
    }
  }
}
