/** `CalendarViewModel`: the events of the `calendarEvents` path grouped by
    day, the list shown for the selected date, and adding and deleting events. */
module Calendar {
  import opened Wire
  import opened Models
  import opened Seqs
  import opened Store

  const SecondsPerDay := 86400

  /** `Calendar.current.startOfDay(for:)`, with the calendar fixed to UTC:
      the midnight at or before `t`. */
  function StartOfDay(t: int): (d: int)
    ensures d <= t < d + SecondsPerDay
    ensures d % SecondsPerDay == 0
  {
    t - t % SecondsPerDay
  }

  lemma StartOfDayIdempotent(t: int)
    ensures StartOfDay(StartOfDay(t)) == StartOfDay(t)
  {
  }

  /** Two instants get the same key exactly when they fall on the same day. */
  lemma SameKeyIffSameDay(a: int, b: int)
    ensures StartOfDay(a) == StartOfDay(b) <==> a / SecondsPerDay == b / SecondsPerDay
  {
  }

  /** The event `fetchEvents` makes of one child: the child must be a
      dictionary with a numeric `date`, a string `title` and a string `id`,
      and the event's id is the payload's `id`, not the child's key. */
  function DecodeEvent(v: Value): (r: Option<CalendarEvent>)
    ensures r.Some? <==>
      v.Dict? && NumberField(v.fields, "date").Some? && StringField(v.fields, "title").Some? && StringField(v.fields, "id").Some?
    ensures r.Some? ==>
      v.fields["id"] == Str(r.value.id) && v.fields["title"] == Str(r.value.title) && v.fields["date"] == Num(r.value.date)
  {
    if !v.Dict? then None
    else match (NumberField(v.fields, "date"), StringField(v.fields, "title"), StringField(v.fields, "id"))
      case (Some(date), Some(title), Some(id)) => Some(CalendarEvent(id, title, date))
      case _ => None
  }

  /** What `addEvent` writes. */
  function EventPayload(id: string, title: string, date: int): Fields
  {
    map["id" := Str(id), "title" := Str(title), "date" := Num(date)]
  }

  lemma DecodeEventPayload(id: string, title: string, date: int)
    ensures DecodeEvent(Dict(EventPayload(id, title, date))) == Some(CalendarEvent(id, title, date))
  {
  }

  /** The well-formed events among the children visited in `order`, in that order. */
  function DecodedEvents(fields: Fields, order: seq<string>): seq<CalendarEvent>
    requires forall k :: k in order ==> k in fields
    decreases |order|
  {
    if order == [] then []
    else
      var last := order[|order| - 1];
      DecodedEvents(fields, order[..|order| - 1]) + match DecodeEvent(fields[last]) case Some(e) => [e] case None => []
  }

  lemma DecodedEventsStep(fields: Fields, order: seq<string>, i: int)
    requires forall k :: k in order ==> k in fields
    requires 0 <= i < |order|
    ensures DecodedEvents(fields, order[..i + 1]) ==
      DecodedEvents(fields, order[..i]) + match DecodeEvent(fields[order[i]]) case Some(e) => [e] case None => []
  {
    assert order[..i + 1][..i] == order[..i];
  }

  /** A child that decodes contributes its event. */
  lemma {:induction false} DecodedEventsHas(fields: Fields, order: seq<string>, i: int)
    requires forall k :: k in order ==> k in fields
    requires 0 <= i < |order| && DecodeEvent(fields[order[i]]).Some?
    ensures DecodeEvent(fields[order[i]]).value in DecodedEvents(fields, order)
    decreases |order|
  {
    var init := order[..|order| - 1];
    if i < |order| - 1 {
      assert init[i] == order[i];
      DecodedEventsHas(fields, init, i);
    }
  }

  /** The well-formed events of a snapshot of the path: none when the path
      reads as null. */
  function SnapshotEvents(snapshot: Value, order: seq<string>): seq<CalendarEvent>
    requires snapshot.Dict? ==> Enumerates(order, snapshot.fields)
  {
    if snapshot.Dict? then DecodedEvents(snapshot.fields, order) else []
  }

  /** The test "falls on `day`". */
  function FallsOn(day: int): CalendarEvent -> bool
  {
    (e: CalendarEvent) => StartOfDay(e.date) == day
  }

  /** The events of `es` that fall on `day`, in their order in `es`. */
  function OnDay(es: seq<CalendarEvent>, day: int): seq<CalendarEvent>
  {
    Filter(es, FallsOn(day))
  }

  lemma OnDayAppend(es: seq<CalendarEvent>, e: CalendarEvent, day: int)
    ensures OnDay(es + [e], day) == OnDay(es, day) + if StartOfDay(e.date) == day then [e] else []
  {
    FilterAppend(es, [e], FallsOn(day));
    assert [e][1..] == [];
  }

  /** `g` groups `es` by day: every key holds exactly the events of its day,
      no bucket is empty, and every event's day is a key. */
  ghost predicate IsGrouping(g: map<int, seq<CalendarEvent>>, es: seq<CalendarEvent>)
  {
    && (forall day :: day in g ==> g[day] == OnDay(es, day) && g[day] != [])
    && (forall e :: e in es ==> StartOfDay(e.date) in g)
  }

  /** `g` with `e` appended to the bucket of its day, as `fetchEvents` does. */
  function Appended(g: map<int, seq<CalendarEvent>>, e: CalendarEvent): map<int, seq<CalendarEvent>>
  {
    var day := StartOfDay(e.date);
    g[day := (if day in g then g[day] else []) + [e]]
  }

  /** Appending an event to the bucket of its day keeps a grouping a grouping. */
  lemma GroupingStep(g: map<int, seq<CalendarEvent>>, es: seq<CalendarEvent>, e: CalendarEvent)
    requires IsGrouping(g, es)
    ensures IsGrouping(Appended(g, e), es + [e])
  {
    var g' := Appended(g, e);
    var d := StartOfDay(e.date);
    forall day | day in g' ensures g'[day] == OnDay(es + [e], day) {
      OnDayAppend(es, e, day);
      if day == d && d !in g {
        FilterEmpty(es, FallsOn(day));
      }
    }
    forall x | x in es + [e] ensures StartOfDay(x.date) in g' {
      if x != e {
        assert x in es;
      }
    }
  }

  /** The sizes of the buckets of `days`, added up. */
  function BucketSizes(g: map<int, seq<CalendarEvent>>, days: seq<int>): nat
    requires forall i :: 0 <= i < |days| ==> days[i] in g
  {
    if days == [] then 0
    else
      |g[days[0]]| + BucketSizes(g, days[1..])
  }

  /** The number of events of `es` falling on each of `days`, added up. */
  function CountOnDays(es: seq<CalendarEvent>, days: seq<int>): nat
  {
    if days == [] then 0 else |OnDay(es, days[0])| + CountOnDays(es, days[1..])
  }

  lemma {:induction false} CountOnDaysNone(days: seq<int>)
    ensures CountOnDays([], days) == 0
  {
    if days != [] {
      CountOnDaysNone(days[1..]);
    }
  }

  lemma {:induction false} CountOnDaysAppend(es: seq<CalendarEvent>, e: CalendarEvent, days: seq<int>)
    ensures CountOnDays(es + [e], days) == CountOnDays(es, days) + multiset(days)[StartOfDay(e.date)]
  {
    if days != [] {
      OnDayAppend(es, e, days[0]);
      CountOnDaysAppend(es, e, days[1..]);
      assert days == [days[0]] + days[1..];
      assert multiset(days) == multiset{days[0]} + multiset(days[1..]);
    }
  }

  lemma {:induction false} DistinctOnce(days: seq<int>, x: int)
    requires Distinct(days) && x in days
    ensures multiset(days)[x] == 1
  {
    assert days == [days[0]] + days[1..];
    assert multiset(days) == multiset{days[0]} + multiset(days[1..]);
    if days[0] == x {
      assert x !in days[1..];
    } else {
      DistinctOnce(days[1..], x);
    }
  }

  /** Counting the events of every listed day counts each event once. */
  lemma {:induction false} CountOnDaysAll(es: seq<CalendarEvent>, days: seq<int>)
    requires Distinct(days)
    requires forall e :: e in es ==> StartOfDay(e.date) in days
    ensures CountOnDays(es, days) == |es|
    decreases |es|
  {
    if es == [] {
      CountOnDaysNone(days);
    } else {
      var init, e := es[..|es| - 1], es[|es| - 1];
      assert es == init + [e];
      CountOnDaysAll(init, days);
      CountOnDaysAppend(init, e, days);
      DistinctOnce(days, StartOfDay(e.date));
    }
  }

  lemma {:induction false} BucketSizesCount(g: map<int, seq<CalendarEvent>>, es: seq<CalendarEvent>, days: seq<int>)
    requires IsGrouping(g, es)
    requires forall i :: 0 <= i < |days| ==> days[i] in g
    ensures BucketSizes(g, days) == CountOnDays(es, days)
  {
    if days != [] {
      BucketSizesCount(g, es, days[1..]);
    }
  }

  /** The sizes of all buckets of a grouping, each day taken once, add up
      to the number of grouped events. */
  lemma BucketSizesSum(g: map<int, seq<CalendarEvent>>, es: seq<CalendarEvent>, days: seq<int>)
    requires IsGrouping(g, es)
    requires Distinct(days)
    requires forall i :: 0 <= i < |days| ==> days[i] in g
    requires forall d :: d in g ==> d in days
    ensures BucketSizes(g, days) == |es|
  {
    BucketSizesCount(g, es, days);
    CountOnDaysAll(es, days);
  }

  /** The grouping after the child at `order[i]` has been visited. */
  lemma GroupingAfterChild(g: map<int, seq<CalendarEvent>>, fields: Fields, order: seq<string>, i: int)
    requires forall k :: k in order ==> k in fields
    requires 0 <= i < |order|
    requires IsGrouping(g, DecodedEvents(fields, order[..i]))
    ensures DecodeEvent(fields[order[i]]).None? ==> IsGrouping(g, DecodedEvents(fields, order[..i + 1]))
    ensures DecodeEvent(fields[order[i]]).Some? ==>
      IsGrouping(Appended(g, DecodeEvent(fields[order[i]]).value), DecodedEvents(fields, order[..i + 1]))
  {
    var es := DecodedEvents(fields, order[..i]);
    var es' := DecodedEvents(fields, order[..i + 1]);
    DecodedEventsStep(fields, order, i);
    match DecodeEvent(fields[order[i]]) {
      case Some(e) =>
        assert es' == es + [e];
        GroupingStep(g, es, e);
      case None =>
        assert es' == es + [];
        assert es' == es;
    }
  }

  /** Every key of a grouping is a start of day. */
  lemma GroupingKeysAreDays(g: map<int, seq<CalendarEvent>>, es: seq<CalendarEvent>)
    requires IsGrouping(g, es)
    ensures forall day :: day in g ==> StartOfDay(day) == day && g[day] != []
  {
    forall day | day in g ensures StartOfDay(day) == day {
      var e := g[day][0];
      assert e in OnDay(es, day);
      assert FallsOn(day)(e);
    }
  }

  /** Each event of a grouping lies in the bucket of its own day and in no other. */
  lemma EventInOneBucket(g: map<int, seq<CalendarEvent>>, es: seq<CalendarEvent>, e: CalendarEvent)
    requires IsGrouping(g, es) && e in es
    ensures StartOfDay(e.date) in g && e in g[StartOfDay(e.date)]
    ensures forall day :: day in g && e in g[day] ==> day == StartOfDay(e.date)
  {
    var d := StartOfDay(e.date);
    assert multiset(es)[e] > 0;
    assert multiset(OnDay(es, d))[e] > 0;
    forall day | day in g && e in g[day] ensures day == d {
      assert FallsOn(day)(e);
    }
  }

  /** One step of `fetchEvents`' loop: `event` is appended to the bucket of
      its start of day, which is created when missing. */
  method AddToBucket(g: map<int, seq<CalendarEvent>>, event: CalendarEvent) returns (g': map<int, seq<CalendarEvent>>)
    ensures g' == Appended(g, event)
  {
    var normalizedDate := StartOfDay(event.date);
    if normalizedDate in g {
      g' := g[normalizedDate := g[normalizedDate] + [event]];
    } else {
      g' := g[normalizedDate := [event]];
      assert [] + [event] == [event];
    }
  }

  /** The loop of `fetchEvents`' listener over a snapshot whose dictionary is
      visited in `order`: every well-formed child lands in the bucket of its
      start of day, and the buckets hold exactly those events, in visiting
      order, with no empty bucket. */
  method GroupByDay(snapshot: Value, order: seq<string>) returns (grouped: map<int, seq<CalendarEvent>>)
    requires snapshot.Dict? ==> Enumerates(order, snapshot.fields)
    ensures IsGrouping(grouped, SnapshotEvents(snapshot, order))
    ensures !snapshot.Dict? ==> grouped == map[]
    ensures forall day :: day in grouped ==> StartOfDay(day) == day && grouped[day] != []
  {
    var newEvents: map<int, seq<CalendarEvent>> := map[];
    if snapshot.Dict? {
      var fields := snapshot.fields;
      for i := 0 to |order|
        invariant IsGrouping(newEvents, DecodedEvents(fields, order[..i]))
      {
        GroupingAfterChild(newEvents, fields, order, i);
        var event := DecodeEvent(fields[order[i]]);
        if event.Some? {
          newEvents := AddToBucket(newEvents, event.value);
        }
      }
      assert order[..|order|] == order;
    }
    grouped := newEvents;
    GroupingKeysAreDays(grouped, SnapshotEvents(snapshot, order));
  }

  /** The list under the date picker as written: `events[selectedDate]`,
      looked up with the selected instant itself. */
  function ListedAsWritten(events: map<int, seq<CalendarEvent>>, selectedDate: int): (r: Option<seq<CalendarEvent>>)
    ensures r.Some? <==> selectedDate in events
    ensures r.Some? ==> r.value == events[selectedDate]
  {
    if selectedDate in events then Some(events[selectedDate]) else None
  }

  /** The list under the date picker as evidently intended: the bucket of
      the selected date's day. */
  function Listed(events: map<int, seq<CalendarEvent>>, selectedDate: int): (r: Option<seq<CalendarEvent>>)
    ensures r.Some? <==> StartOfDay(selectedDate) in events
    ensures r.Some? ==> r.value == events[StartOfDay(selectedDate)]
  {
    var day := StartOfDay(selectedDate);
    if day in events then Some(events[day]) else None
  }

  /** As written, any selected instant other than a midnight finds no events,
      whatever the grouping holds. */
  lemma AsWrittenListMissesNonMidnight(g: map<int, seq<CalendarEvent>>, es: seq<CalendarEvent>, selectedDate: int)
    requires IsGrouping(g, es)
    requires StartOfDay(selectedDate) != selectedDate
    ensures ListedAsWritten(g, selectedDate) == None
  {
    GroupingKeysAreDays(g, es);
  }

  /** An event added at 10:00 on 1970-01-01 and read back: the list as
      written shows nothing for that selected date, the corrected list
      shows the event. */
  lemma AsWrittenListHidesAddedEvent(g: map<int, seq<CalendarEvent>>)
    requires IsGrouping(g, SnapshotEvents(Dict(map["e1" := Dict(EventPayload("e1", "Встреча", 36000))]), ["e1"]))
    ensures ListedAsWritten(g, 36000) == None
    ensures Listed(g, 36000) == Some([CalendarEvent("e1", "Встреча", 36000)])
  {
    var fields := map["e1" := Dict(EventPayload("e1", "Встреча", 36000))];
    var e := CalendarEvent("e1", "Встреча", 36000);
    DecodeEventPayload("e1", "Встреча", 36000);
    assert DecodedEvents(fields, ["e1"]) == [e] by {
      assert ["e1"][..0] == [];
      assert DecodedEvents(fields, []) == [];
    }
    assert StartOfDay(36000) == 0;
    AsWrittenListMissesNonMidnight(g, [e], 36000);
    assert OnDay([e], 0) == [e] by {
      OnDayAppend([], e, 0);
      assert [] + [e] == [e];
    }
    assert e in [e];
    assert 0 in g;
  }

  /** An event added for a selected date is listed for that date once the
      next snapshot has been grouped, whatever the visiting order. */
  lemma AddedEventIsListed(children: map<string, Value>, id: string, title: string, date: int, order: seq<string>, g: map<int, seq<CalendarEvent>>)
    requires Enumerates(order, children[id := Dict(EventPayload(id, title, date))])
    requires IsGrouping(g, SnapshotEvents(Dict(children[id := Dict(EventPayload(id, title, date))]), order))
    ensures Listed(g, date).Some? && CalendarEvent(id, title, date) in Listed(g, date).value
  {
    var fields := children[id := Dict(EventPayload(id, title, date))];
    assert id in order;
    var i :| 0 <= i < |order| && order[i] == id;
    DecodedEventsHas(fields, order, i);
    EventInOneBucket(g, DecodedEvents(fields, order), CalendarEvent(id, title, date));
  }

  class CalendarViewModel {
    var selectedDate: int
    var events: map<int, seq<CalendarEvent>>
    const db: Collection

    /** `selectedDate` starts at the clock reading `now` (`Date()`). */
    constructor (db: Collection, now: int)
      ensures this.db == db && selectedDate == now && events == map[]
    {
      this.db := db;
      selectedDate := now;
      events := map[];
    }

    /** The date picker's binding. */
    method SelectDate(date: int)
      modifies this`selectedDate
      ensures selectedDate == date
    {
      selectedDate := date;
    }

    /** The list shown under the date picker, with the lookup corrected:
        the bucket of the selected instant's day, if there is one. */
    function Displayed(): (r: Option<seq<CalendarEvent>>)
      reads this
      ensures r.Some? <==> StartOfDay(selectedDate) in events
      ensures r.Some? ==> r.value == events[StartOfDay(selectedDate)]
    {
      Listed(events, selectedDate)
    }

    /** The `observe(.value)` listener installed by `fetchEvents`: `events` is
        rebuilt from nothing out of the path's snapshot, so nothing of its
        previous contents survives. */
    method OnEventsSnapshot(order: seq<string>)
      requires db.children != map[] ==> Enumerates(order, db.children)
      modifies this`events
      ensures IsGrouping(events, SnapshotEvents(db.Snapshot(), order))
      ensures forall day :: day in events ==> StartOfDay(day) == day && events[day] != []
    {
      events := GroupByDay(db.Snapshot(), order);
    }

    /** `addEvent(title:)`: the event `{id, title, date: selectedDate}` is
        written under the child named by its own id `eventId` (the
        `UUID().uuidString`). Nobody hears of a failed write. */
    method AddEvent(title: string, eventId: string, failure: Option<string>)
      modifies db
      ensures db.children == if failure.None? then old(db.children)[eventId := Dict(EventPayload(eventId, title, selectedDate))]
                             else old(db.children)
    {
      var _ := db.SetValue(eventId, Dict(EventPayload(eventId, title, selectedDate)), failure);
    }

    /** `deleteEvent(event)`: removes the child named by the event's id. */
    method DeleteEvent(event: CalendarEvent, failure: Option<string>)
      modifies db
      ensures db.children == if failure.None? then old(db.children) - {event.id} else old(db.children)
    {
      var _ := db.RemoveValue(event.id, failure);
    }
  }
}
