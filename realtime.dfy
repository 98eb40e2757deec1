/** The live part of the dimensional dashboard: the sliding window of the
    real-time chart, the three live statistics, the activity feed and the
    handler of the simulated WebSocket messages.

    Timers, the DOM and the chart drawing are not modelled: one interval
    tick or one message is one method call, the `Math.random` draws,
    `Date.now()` and `toLocaleTimeString()` are parameters, and the
    delayed removal of a feed item is its own method, `RemoveItem`. */
module RealtimeUpdates {
  import opened Common
  import opened Text

  const MaxDataPoints: nat := 50
  /** The feed keeps at most this many items before it schedules one for removal. */
  const FeedLimit: nat := 10
  const RevenueFlash: string := "#10b981"

  datatype Point = Point(value: real, timestamp: int)

  datatype Activity = Activity(kind: string, message: string)

  /** A feed entry: `id` stands for the identity of its DOM element. */
  datatype FeedItem = FeedItem(id: nat, time: string, activity: Activity)

  /** A simulated WebSocket message: its event name and, for
      `server_status`, the CPU load. */
  datatype Message = Message(event: string, cpu: real)

  predicate IsDraw(r: real) {
    0.0 <= r < 1.0
  }

  /** The i-th point of the initial fill, made when the clock reads `now` (ms). */
  function InitialPoint(r: real, now: int, i: nat): (p: Point)
    ensures IsDraw(r) ==> 25.0 <= p.value < 75.0
    ensures i < MaxDataPoints ==> p.timestamp <= now - 1000
  {
    Point(r * 50.0 + 25.0, now - (MaxDataPoints - i) * 1000)
  }

  /** The 50 points the stream starts with; point i reads the clock
      itself, so `nows[i]` is the value of that read. */
  function InitialFill(draws: seq<real>, nows: seq<int>): (ps: seq<Point>)
    requires |draws| == MaxDataPoints && |nows| == MaxDataPoints
    ensures |ps| == MaxDataPoints
    ensures forall i :: 0 <= i < MaxDataPoints ==> ps[i].timestamp <= nows[i] - 1000
  {
    seq(MaxDataPoints, i requires 0 <= i < MaxDataPoints => InitialPoint(draws[i], nows[i], i))
  }

  /** The initial values lie in [25, 75). Consecutive timestamps are one
      second apart plus the time that passed between the two clock reads,
      so with a clock that does not run backwards they are at least one
      second apart; the last is one second before the last read. */
  lemma InitialFillShape(draws: seq<real>, nows: seq<int>)
    requires |draws| == MaxDataPoints && forall k :: 0 <= k < |draws| ==> IsDraw(draws[k])
    requires |nows| == MaxDataPoints
    ensures forall i :: 0 <= i < MaxDataPoints ==> 25.0 <= InitialFill(draws, nows)[i].value < 75.0
    ensures forall i :: 0 < i < MaxDataPoints ==>
      InitialFill(draws, nows)[i].timestamp - InitialFill(draws, nows)[i - 1].timestamp == 1000 + (nows[i] - nows[i - 1])
    ensures (forall i :: 0 < i < MaxDataPoints ==> nows[i - 1] <= nows[i]) ==>
      forall i :: 0 < i < MaxDataPoints ==> InitialFill(draws, nows)[i].timestamp >= InitialFill(draws, nows)[i - 1].timestamp + 1000
    ensures InitialFill(draws, nows)[MaxDataPoints - 1].timestamp == nows[MaxDataPoints - 1] - 1000
  {
    var ps := InitialFill(draws, nows);
    forall i | 0 <= i < MaxDataPoints
      ensures 25.0 <= ps[i].value < 75.0
    {
      assert IsDraw(draws[i]);
    }
  }

  /** The value after `last` for the draw r: a change in [-5, 5) clamped to [0, 100]. */
  function NextValue(last: real, r: real): (v: real)
    ensures 0.0 <= v <= 100.0
  {
    Clamp(last + (r - 0.5) * 10.0, 0.0, 100.0)
  }

  /** A step moves a value already in [0, 100] by at most 5. */
  lemma NextValueStep(last: real, r: real)
    requires 0.0 <= last <= 100.0 && IsDraw(r)
    ensures Abs(NextValue(last, r) - last) <= 5.0
  {
  }

  /** The buffer after a tick appended p: the front element is dropped
      when the buffer then holds more than 50 points. */
  function Slide(data: seq<Point>, p: Point): (w: seq<Point>)
    ensures |w| == if |data| < MaxDataPoints then |data| + 1 else |data|
    ensures w[|w| - 1] == p
    ensures w[..|w| - 1] == data[|data| - (|w| - 1)..]
  {
    var d := data + [p];
    if |d| > MaxDataPoints then d[1..] else d
  }

  /** A full window stays full, and its oldest point is the one dropped. */
  lemma SlideKeepsWindow(data: seq<Point>, p: Point)
    requires |data| == MaxDataPoints
    ensures Slide(data, p) == data[1..] + [p]
  {
    var w := Slide(data, p);
    assert w[..|w| - 1] == data[1..];
    assert w == w[..|w| - 1] + [p];
  }

  /** The window never shrinks: a buffer that holds more than 50 points
      (the stream was started twice) keeps its length forever. */
  lemma {:induction false} SlideNeverShrinks(data: seq<Point>, ps: seq<Point>)
    requires |data| >= MaxDataPoints
    ensures |SlideAll(data, ps)| == |data|
    decreases |ps|
  {
    if ps != [] {
      SlideNeverShrinks(data, ps[..|ps| - 1]);
    }
  }

  /** The buffer after the ticks that appended ps, one after another. */
  function SlideAll(data: seq<Point>, ps: seq<Point>): seq<Point>
    decreases |ps|
  {
    if ps == [] then data else Slide(SlideAll(data, ps[..|ps| - 1]), ps[|ps| - 1])
  }

  /** The `current-users` figure for a value v and draw r. */
  function UsersFor(v: real, r: real): (n: int)
    requires 0.0 <= v <= 100.0 && IsDraw(r)
    ensures 0 <= n < 1050
  {
    (v * 10.0 + r * 50.0).Floor
  }

  /** The `requests-sec` figure for a value v and draw r. */
  function RequestsFor(v: real, r: real): (n: int)
    requires 0.0 <= v <= 100.0 && IsDraw(r)
    ensures 0 <= n < 15
  {
    (v / 10.0 + r * 5.0).Floor
  }

  /** The `avg-response` figure, in ms, for a draw r. */
  function ResponseFor(r: real): (n: int)
    requires IsDraw(r)
    ensures 50 <= n < 150
  {
    (50.0 + r * 100.0).Floor
  }

  /** The user count shown after a `user_joined` message: the shown number
      with its commas removed, plus one, in en-US form; `NaN` when the
      shown text holds no number. */
  function JoinedCount(shown: string): (c: string)
    ensures ParseInt(RemoveCommas(shown)).None? ==> c == "NaN"
    ensures ParseInt(RemoveCommas(shown)).Some? ==>
      ParseInt(RemoveCommas(c)) == Some(ParseInt(RemoveCommas(shown)).value + 1)
  {
    match ParseInt(RemoveCommas(shown))
    case Some(n) => LocaleRoundTrip(n + 1); LocaleString(n + 1)
    case None => "NaN"
  }

  /** A count written by the dashboard goes up by exactly one. */
  lemma JoinedIncrements(n: int)
    ensures JoinedCount(LocaleString(n)) == LocaleString(n + 1)
  {
    LocaleRoundTrip(n);
  }

  /** The warning a `server_status` message raises, if any. */
  function CpuWarning(cpu: real): (a: Option<Activity>)
    ensures a.Some? <==> cpu > 80.0
    ensures a.Some? ==>
      a.value.kind == "warning" && a.value.message == "High CPU usage: " + IntToDecimal(cpu.Floor) + "%"
  {
    if cpu > 80.0 then Some(Activity("warning", "High CPU usage: " + IntToDecimal(cpu.Floor) + "%"))
    else None
  }

  /** The feed without the item `id`, in the same order. */
  function Without(items: seq<FeedItem>, id: nat): (r: seq<FeedItem>)
    ensures |r| <= |items|
    ensures (forall k :: 0 <= k < |items| ==> items[k].id != id) ==> r == items
  {
    if items == [] then []
    else (if items[0].id == id then [] else [items[0]]) + Without(items[1..], id)
  }

  /** An item survives exactly when it was in the feed and is not the one removed. */
  lemma {:induction false} WithoutMembers(items: seq<FeedItem>, id: nat)
    ensures forall x :: x in Without(items, id) <==> x in items && x.id != id
    decreases |items|
  {
    if items != [] {
      WithoutMembers(items[1..], id);
      assert items == [items[0]] + items[1..];
    }
  }

  lemma {:induction false} WithoutLength(items: seq<FeedItem>, id: nat)
    requires forall a, b :: 0 <= a < b < |items| ==> items[a].id != items[b].id
    requires exists k :: 0 <= k < |items| && items[k].id == id
    ensures |Without(items, id)| == |items| - 1
    decreases |items|
  {
    if items[0].id != id {
      var k :| 0 <= k < |items| && items[k].id == id;
      assert items[1..][k - 1].id == id;
      WithoutLength(items[1..], id);
    } else {
      assert forall k :: 0 <= k < |items[1..]| ==> items[1..][k].id != id;
    }
  }

  /** The feed and its scheduled removals after `item` is put on top. */
  function Added(items: seq<FeedItem>, leaving: set<nat>, item: FeedItem): (r: (seq<FeedItem>, set<nat>))
    ensures |r.0| == |items| + 1 && r.0[0] == item && r.0[1..] == items
    ensures |items| < FeedLimit ==> r.1 == leaving
    ensures |items| >= FeedLimit ==> r.1 == leaving + {r.0[|items|].id}
  {
    var now := [item] + items;
    (now, if |now| > FeedLimit then leaving + {now[|now| - 1].id} else leaving)
  }

  /** The feed after the removal timer of item `id` fired. */
  function Removed(items: seq<FeedItem>, leaving: set<nat>, id: nat): (r: (seq<FeedItem>, set<nat>))
    ensures id !in r.1 && forall x :: x in r.1 <==> x in leaving && x != id
    ensures forall x :: x in r.0 <==> x in items && x.id != id
    ensures |r.0| <= |items|
  {
    WithoutMembers(items, id);
    (Without(items, id), leaving - {id})
  }

  predicate DistinctIds(items: seq<FeedItem>) {
    forall a, b :: 0 <= a < b < |items| ==> items[a].id != items[b].id
  }

  /** When each removal fires before the next item arrives, a feed of ten
      stays at ten: the new item is on top and the oldest one is gone. */
  lemma SteadyFeed(items: seq<FeedItem>, item: FeedItem)
    requires |items| == FeedLimit && DistinctIds(items)
    requires forall k :: 0 <= k < |items| ==> items[k].id != item.id
    ensures var (now, leaving) := Added(items, {}, item);
      leaving == {items[|items| - 1].id} &&
      Removed(now, leaving, items[|items| - 1].id) == ([item] + items[..|items| - 1], {})
  {
    var now := [item] + items;
    var last := items[|items| - 1];
    assert now[|now| - 1] == last;
    var kept := [item] + items[..|items| - 1];
    assert now == kept + [last];
    WithoutKeeps(kept, last);
  }

  lemma {:induction false} WithoutKeeps(kept: seq<FeedItem>, last: FeedItem)
    requires forall k :: 0 <= k < |kept| ==> kept[k].id != last.id
    ensures Without(kept + [last], last.id) == kept
    decreases |kept|
  {
    if kept == [] {
      assert [] + [last] == [last];
    } else {
      assert (kept + [last])[1..] == kept[1..] + [last];
      WithoutKeeps(kept[1..], last);
      assert [kept[0]] + kept[1..] == kept;
    }
  }

  /** Two items that arrive within one removal delay both find the same
      oldest item at the bottom: only it is scheduled, so once the timers
      have fired the feed holds eleven items, not ten. */
  lemma BurstLeavesEleven(items: seq<FeedItem>, a: FeedItem, b: FeedItem)
    requires |items| == FeedLimit && DistinctIds(items)
    requires forall k :: 0 <= k < |items| ==> items[k].id != a.id && items[k].id != b.id
    requires a.id != b.id
    ensures var (s1, l1) := Added(items, {}, a);
      var (s2, l2) := Added(s1, l1, b);
      l2 == {items[|items| - 1].id} &&
      |Removed(s2, l2, items[|items| - 1].id).0| == FeedLimit + 1
  {
    var last := items[|items| - 1];
    var s2 := [b] + ([a] + items);
    assert s2[|s2| - 1] == last;
    assert DistinctIds(s2) by {
      forall x, y | 0 <= x < y < |s2| ensures s2[x].id != s2[y].id {
        if x >= 2 {
          assert s2[x] == items[x - 2] && s2[y] == items[y - 2];
        } else if x == 1 {
          assert s2[y] == items[y - 2];
        } else if y >= 2 {
          assert s2[y] == items[y - 2];
        }
      }
    }
    WithoutLength(s2, last.id);
  }

  class Dashboard {
    /** `realtimeData`. */
    var data: seq<Point>
    /** The text of the `current-users`, `requests-sec` and `avg-response` figures. */
    var currentUsers: string
    var requestsSec: string
    var avgResponse: string
    /** The colour of the revenue figure. */
    var revenueColor: string
    /** The activity feed, newest first, and the items scheduled for removal. */
    var feed: seq<FeedItem>
    var leaving: set<nat>
    var nextId: nat

    ghost predicate Valid()
      reads this
    {
      DistinctIds(feed) && (forall k :: 0 <= k < |feed| ==> feed[k].id < nextId)
    }

    constructor (users: string)
      ensures Valid()
      ensures data == [] && feed == [] && leaving == {} && currentUsers == users
      ensures requestsSec == "" && avgResponse == "" && revenueColor == ""
    {
      data, feed, leaving, nextId := [], [], {}, 0;
      currentUsers, requestsSec, avgResponse, revenueColor := users, "", "", "";
    }

    /** The initial fill of `startRealtimeDataStream`: 50 points are pushed
        after whatever the buffer already holds. */
    method StartStream(draws: seq<real>, nows: seq<int>)
      requires |draws| == MaxDataPoints && |nows| == MaxDataPoints
      modifies this`data
      ensures data == old(data) + InitialFill(draws, nows)
    {
      for i := 0 to MaxDataPoints
        invariant data == old(data) + InitialFill(draws, nows)[..i]
      {
        data := data + [InitialPoint(draws[i], nows[i], i)];
        assert InitialFill(draws, nows)[..i + 1] == InitialFill(draws, nows)[..i] + [InitialPoint(draws[i], nows[i], i)];
      }
    }

    /** `updateRealtimeStats`. */
    method UpdateStats(v: real, r1: real, r2: real, r3: real)
      requires 0.0 <= v <= 100.0 && IsDraw(r1) && IsDraw(r2) && IsDraw(r3)
      modifies this`currentUsers, this`requestsSec, this`avgResponse
      ensures currentUsers == LocaleString(UsersFor(v, r1))
      ensures requestsSec == LocaleString(RequestsFor(v, r2))
      ensures avgResponse == IntToDecimal(ResponseFor(r3)) + "ms"
    {
      currentUsers := LocaleString((v * 10.0 + r1 * 50.0).Floor);
      requestsSec := LocaleString((v / 10.0 + r2 * 5.0).Floor);
      avgResponse := IntToDecimal((50.0 + r3 * 100.0).Floor) + "ms";
    }

    /** One tick of the stream's interval. On an empty buffer the source
        fails reading the last value before it changes anything; the
        model then reports `ok == false` and changes nothing. */
    method Tick(r: real, now: int, r1: real, r2: real, r3: real) returns (ok: bool)
      requires IsDraw(r1) && IsDraw(r2) && IsDraw(r3)
      modifies this`data, this`currentUsers, this`requestsSec, this`avgResponse
      ensures ok <==> old(data) != []
      ensures !ok ==>
        data == old(data) && currentUsers == old(currentUsers) &&
        requestsSec == old(requestsSec) && avgResponse == old(avgResponse)
      ensures ok ==>
        var v := NextValue(old(data)[|old(data)| - 1].value, r);
        && data == Slide(old(data), Point(v, now))
        && currentUsers == LocaleString(UsersFor(v, r1))
        && requestsSec == LocaleString(RequestsFor(v, r2))
        && avgResponse == IntToDecimal(ResponseFor(r3)) + "ms"
    {
      if data == [] {
        return false;
      }
      var last := data[|data| - 1].value;
      var v := Clamp(last + (r - 0.5) * 10.0, 0.0, 100.0);
      data := data + [Point(v, now)];
      if |data| > MaxDataPoints {
        data := data[1..];
      }
      UpdateStats(v, r1, r2, r3);
      ok := true;
    }

    /** `addActivityItem`: the item goes on top; when the feed then holds
        more than ten items the bottom one is scheduled for removal. */
    method AddActivityItem(activity: Activity, time: string)
      requires Valid()
      modifies this`feed, this`leaving, this`nextId
      ensures Valid()
      ensures (feed, leaving) == Added(old(feed), old(leaving), FeedItem(old(nextId), time, activity))
      ensures nextId == old(nextId) + 1
    {
      var item := FeedItem(nextId, time, activity);
      feed := [item] + feed;
      nextId := nextId + 1;
      if |feed| > FeedLimit {
        leaving := leaving + {feed[|feed| - 1].id};
      }
    }

    /** The removal timer of item `id` firing (a no-op if it is gone). */
    method RemoveItem(id: nat)
      requires Valid()
      modifies this`feed, this`leaving
      ensures Valid()
      ensures (feed, leaving) == Removed(old(feed), old(leaving), id)
    {
      var kept := FilterOut(feed, id);
      WithoutDistinct(feed, id);
      feed := kept;
      leaving := leaving - {id};
    }

    /** `handleWebSocketMessage`. */
    method HandleMessage(msg: Message, time: string)
      requires Valid()
      modifies this`currentUsers, this`revenueColor, this`feed, this`leaving, this`nextId
      ensures Valid()
      ensures msg.event == "user_joined" ==> currentUsers == JoinedCount(old(currentUsers))
      ensures msg.event != "user_joined" ==> currentUsers == old(currentUsers)
      ensures revenueColor == if msg.event == "purchase_completed" then RevenueFlash else old(revenueColor)
      ensures msg.event == "server_status" && msg.cpu > 80.0 ==>
        (feed, leaving) == Added(old(feed), old(leaving), FeedItem(old(nextId), time, CpuWarning(msg.cpu).value)) &&
        nextId == old(nextId) + 1
      ensures !(msg.event == "server_status" && msg.cpu > 80.0) ==>
        feed == old(feed) && leaving == old(leaving) && nextId == old(nextId)
    {
      if msg.event == "user_joined" {
        currentUsers := JoinedCount(currentUsers);
      } else if msg.event == "purchase_completed" {
        revenueColor := RevenueFlash;
      } else if msg.event == "server_status" {
        var warning := CpuWarning(msg.cpu);
        if warning.Some? {
          AddActivityItem(warning.value, time);
        }
      }
    }

    /** The revenue colour's reset one second after a purchase. */
    method ResetRevenueColor()
      modifies this`revenueColor
      ensures revenueColor == ""
    {
      revenueColor := "";
    }
  }

  /** `lastItem.remove()`: the feed with item `id` taken out. */
  method FilterOut(items: seq<FeedItem>, id: nat) returns (kept: seq<FeedItem>)
    ensures kept == Without(items, id)
  {
    kept := [];
    for k := 0 to |items|
      invariant kept == Without(items[..k], id)
    {
      assert items[..k + 1] == items[..k] + [items[k]];
      WithoutAppend(items[..k], items[k], id);
      if items[k].id != id {
        kept := kept + [items[k]];
      }
    }
    assert items[..|items|] == items;
  }

  lemma {:induction false} WithoutAppend(items: seq<FeedItem>, x: FeedItem, id: nat)
    ensures Without(items + [x], id) == Without(items, id) + (if x.id == id then [] else [x])
    decreases |items|
  {
    var tail := if x.id == id then [] else [x];
    if items == [] {
      assert items + [x] == [x];
      assert Without([x], id) == tail + Without([], id);
    } else {
      var head := if items[0].id == id then [] else [items[0]];
      assert (items + [x])[0] == items[0];
      assert (items + [x])[1..] == items[1..] + [x];
      WithoutAppend(items[1..], x, id);
      calc {
        Without(items + [x], id);
        head + Without(items[1..] + [x], id);
        head + (Without(items[1..], id) + tail);
        (head + Without(items[1..], id)) + tail;
        Without(items, id) + tail;
      }
    }
  }

  lemma {:induction false} WithoutDistinct(items: seq<FeedItem>, id: nat)
    requires DistinctIds(items)
    ensures DistinctIds(Without(items, id))
    ensures forall k :: 0 <= k < |Without(items, id)| ==> Without(items, id)[k] in items
    decreases |items|
  {
    if items != [] {
      WithoutDistinct(items[1..], id);
      var rest := Without(items[1..], id);
      var r := Without(items, id);
      forall k | 0 <= k < |rest| ensures rest[k].id != items[0].id {
        assert rest[k] in items[1..];
        var m :| 0 <= m < |items[1..]| && items[1..][m] == rest[k];
        assert items[m + 1] == rest[k];
      }
    }
  }
}
