/**
 * The legacy module build of the calendar (assets/js/calendar.js): flat
 * search records projected to calendar events, the all-day rule, the
 * category radios and the category filter.
 */
module LegacyCalendar {
  import opened Wrappers
  import opened Text

  /** One upstream search result: column name to value; a missing column reads as undefined. */
  type Record = map<string, string>

  /** A projected event. `start` and `end` are the text handed to `new Date`. */
  datatype Event = Event(id: Option<string>, title: Option<string>, start: string, end: string,
                         startDate: Option<string>, endDate: Option<string>, category: Option<string>)

  function Column(r: Record, name: string): Option<string>
  {
    if name in r then Some(r[name]) else None
  }

  /** How a template literal prints a value that may be undefined. */
  function Shown(v: Option<string>): string
  {
    v.GetOr("undefined")
  }

  function FormatEvent(r: Record): Event
  {
    Event(Column(r, "Event ID"), Column(r, "Event Name"),
          Shown(Column(r, "Event Start Date")) + "T" + Shown(Column(r, "Event Start Time")),
          Shown(Column(r, "Event End Date")) + "T" + Shown(Column(r, "Event End Time")),
          Column(r, "Event Start Date"), Column(r, "Event End Date"), Column(r, "Event Category Name"))
  }

  /** `formatEvents`: one event per record, in order, each field read from its named column. */
  function FormatEvents(records: seq<Record>): (events: seq<Event>)
    ensures |events| == |records|
    ensures forall i :: 0 <= i < |records| ==>
      var r, e := records[i], events[i];
      && (e.id.Some? <==> "Event ID" in r) && (e.id.Some? ==> e.id.value == r["Event ID"])
      && (e.title.Some? <==> "Event Name" in r) && (e.title.Some? ==> e.title.value == r["Event Name"])
      && (e.startDate.Some? <==> "Event Start Date" in r) && (e.startDate.Some? ==> e.startDate.value == r["Event Start Date"])
      && (e.endDate.Some? <==> "Event End Date" in r) && (e.endDate.Some? ==> e.endDate.value == r["Event End Date"])
      && (e.category.Some? <==> "Event Category Name" in r) && (e.category.Some? ==> e.category.value == r["Event Category Name"])
    ensures forall i :: 0 <= i < |records| ==>
      && events[i].start == Shown(Column(records[i], "Event Start Date")) + "T" + Shown(Column(records[i], "Event Start Time"))
      && events[i].end == Shown(Column(records[i], "Event End Date")) + "T" + Shown(Column(records[i], "Event End Time"))
  {
    seq(|records|, i requires 0 <= i < |records| => FormatEvent(records[i]))
  }

  /** `getEvents` after the response is decoded: no search results means no events. */
  function GetEvents(searchResults: Option<seq<Record>>): (events: seq<Event>)
    ensures searchResults.None? ==> events == []
    ensures searchResults.Some? ==> |events| == |searchResults.value|
    ensures searchResults.Some? ==> forall i :: 0 <= i < |events| ==> events[i] == FormatEvent(searchResults.value[i])
  {
    match searchResults
    case None => []
    case Some(records) => FormatEvents(records)
  }

  /** What `calendar.addEvent` receives: the event unchanged, plus `allDay`. */
  datatype Entry = Entry(event: Event, allDay: bool)

  function AddEvent(e: Event): (entry: Entry)
    ensures entry.event == e
    ensures entry.allDay <==> e.startDate != e.endDate
  {
    Entry(e, e.startDate != e.endDate)
  }

  function Entries(events: seq<Event>): (entries: seq<Entry>)
    ensures |entries| == |events|
    ensures forall i :: 0 <= i < |events| ==> entries[i] == AddEvent(events[i])
  {
    seq(|events|, i requires 0 <= i < |events| => AddEvent(events[i]))
  }

  /** A start and end on the same date never makes an all-day entry, and two different dates always do. */
  lemma AllDayOnlyAcrossDates(e: Event, date: string, other: string)
    requires e.startDate == Some(date)
    ensures e.endDate == Some(date) ==> !AddEvent(e).allDay
    ensures e.endDate == Some(other) && other != date ==> AddEvent(e).allDay
  {
  }

  /** One radio button of the category picker. */
  datatype Radio = Radio(value: string, checked: bool)

  /** `renderCategories`: nothing without a container; otherwise "All" then the categories, only "All" checked. */
  function RenderCategories(hasContainer: bool, categories: seq<string>): (radios: Option<seq<Radio>>)
    ensures radios.Some? <==> hasContainer
    ensures radios.Some? ==> |radios.value| == |categories| + 1 && radios.value[0] == Radio("All", true)
    ensures radios.Some? ==> forall i :: 0 <= i < |categories| ==>
      radios.value[i + 1].value == categories[i] && (radios.value[i + 1].checked <==> categories[i] == "All")
  {
    if !hasContainer then None
    else Some([Radio("All", true)] + seq(|categories|, i requires 0 <= i < |categories| => Radio(categories[i], categories[i] == "All")))
  }

  /** Unless a category is itself called "All", the first radio is the only one checked. */
  lemma OnlyAllIsChecked(categories: seq<string>)
    requires "All" !in categories
    ensures var radios := RenderCategories(true, categories).value;
      forall i :: 0 <= i < |radios| ==> (radios[i].checked <==> i == 0)
  {
    var radios := RenderCategories(true, categories).value;
    forall i | 0 <= i < |radios|
      ensures radios[i].checked <==> i == 0
    {
      if i > 0 {
        assert radios[i].checked <==> categories[i - 1] == "All";
      }
    }
  }

  /** The filter in `onChange`: "All", or the event's own category, equals the selection. */
  predicate Shows(selection: string, e: Event)
  {
    selection == "All" || e.category == Some(selection)
  }

  function Selected(events: seq<Event>, selection: string): (shown: seq<Event>)
    ensures forall e :: multiset(shown)[e] == if Shows(selection, e) then multiset(events)[e] else 0
  {
    var keep := e => Shows(selection, e);
    FilterCounts(events, keep);
    Filter(events, keep)
  }

  /** Selecting "All" shows every event, in its original order. */
  lemma AllSelectsEverything(events: seq<Event>)
    ensures Selected(events, "All") == events
  {
    FilterKeepsAll(events, e => Shows("All", e));
  }

  /** The calendar's added events, as `main` keeps them in `calendarEvents`. */
  class Calendar {
    const events: seq<Event>
    var calendarEvents: seq<Entry>
    /** Every entry removed from the calendar so far, in removal order. */
    ghost var removed: seq<Entry>

    /** `main` after loading: every event is added. */
    constructor (events: seq<Event>)
      ensures this.events == events
      ensures calendarEvents == Entries(events) && removed == []
    {
      this.events := events;
      calendarEvents := Entries(events);
      removed := [];
    }

    /** The `onChange` handler: remove every added entry, then add the selected events. */
    method OnChange(selection: string)
      modifies this
      ensures removed == old(removed) + old(calendarEvents)
      ensures calendarEvents == Entries(Selected(events, selection))
    {
      var i := 0;
      while i < |calendarEvents|
        invariant 0 <= i <= |calendarEvents|
        invariant calendarEvents == old(calendarEvents)
        invariant removed == old(removed) + calendarEvents[..i]
      {
        removed := removed + [calendarEvents[i]];
        i := i + 1;
      }
      assert calendarEvents[..i] == calendarEvents;
      calendarEvents := Entries(Selected(events, selection));
    }
  }
}
